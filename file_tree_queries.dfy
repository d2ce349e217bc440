/**
 * Facts about the directory queries of the file manager: built trees are well formed, every path the
 * full listing reports leads back to its file, the sub-directories reported exist, and the counting
 * and searching queries agree with one another.
 */
module FileTreeQueries {
  import opened Wrappers
  import opened Text
  import opened FileTree

  /** Names are unique in every directory object and are proper path segments. */
  predicate WellFormed(es: seq<Entry>)
    decreases es
  {
    (forall i, j :: 0 <= i < j < |es| ==> es[i].name != es[j].name)
    && (forall i :: 0 <= i < |es| ==> es[i].name != "" && '/' !in es[i].name)
    && (forall i :: 0 <= i < |es| ==>
          match es[i].node
          case File(_, p) => WellFormed(p)
          case Dir(d) => WellFormed(d))
  }

  predicate NodeWellFormed(n: Node) {
    WellFormed(Children(n))
  }

  lemma EntryWellFormed(es: seq<Entry>, i: nat)
    requires WellFormed(es) && i < |es|
    ensures NodeWellFormed(es[i].node)
  {
    match es[i].node
    case File(_, p) =>
    case Dir(d) =>
  }

  lemma GetWellFormed(es: seq<Entry>, name: string)
    requires WellFormed(es) && Get(es, name).Some?
    ensures NodeWellFormed(Get(es, name).value)
  {
    EntryWellFormed(es, IndexOfName(es, name));
  }

  lemma PutWellFormed(es: seq<Entry>, name: string, n: Node)
    requires WellFormed(es) && NodeWellFormed(n)
    requires name != "" && '/' !in name
    ensures WellFormed(Put(es, name, n))
  {
    var r := Put(es, name, n);
    var i := IndexOfName(es, name);
    if i < 0 {
      assert r == es + [Entry(name, n)];
    } else {
      assert r == es[i := Entry(name, n)];
    }
    forall k | 0 <= k < |r|
      ensures match r[k].node
              case File(_, p) => WellFormed(p)
              case Dir(d) => WellFormed(d)
    {
      if k < |es| && r[k] == es[k] {
        EntryWellFormed(es, k);
      }
    }
  }

  lemma {:induction false} InsertWellFormed(es: seq<Entry>, keys: seq<string>, f: FileRef)
    requires keys != [] && WellFormed(es)
    requires forall k :: 0 <= k < |keys| ==> keys[k] != "" && '/' !in keys[k]
    ensures WellFormed(Insert(es, keys, f))
    decreases |keys|
  {
    if |keys| == 1 {
      PutWellFormed(es, keys[0], File(f, []));
    } else {
      var rest := match Get(es, keys[0])
        case None => []
        case Some(c) => Children(c);
      if Get(es, keys[0]).Some? {
        GetWellFormed(es, keys[0]);
      }
      InsertWellFormed(rest, keys[1..], f);
      var child := match Get(es, keys[0])
        case None => Dir(Insert([], keys[1..], f))
        case Some(File(g, props)) => File(g, Insert(props, keys[1..], f))
        case Some(Dir(sub)) => Dir(Insert(sub, keys[1..], f));
      assert Children(child) == Insert(rest, keys[1..], f);
      PutWellFormed(es, keys[0], child);
    }
  }

  /** `buildFileTree` only ever produces well-formed trees. */
  lemma {:induction false} BuildWellFormed(files: seq<FileRef>, root: string)
    ensures WellFormed(Build(files, root))
    decreases |files|
  {
    if files != [] {
      BuildWellFormed(files[..|files| - 1], root);
      InsertWellFormed(Build(files[..|files| - 1], root), KeyPath(root, files[|files| - 1]), files[|files| - 1]);
    }
  }

  // ---------------------------------------------------------------------------------------------
  // listing against lookup

  lemma GetTail(es: seq<Entry>, m: string)
    requires es != [] && es[0].name != m
    ensures Get(es, m) == Get(es[1..], m)
  {
  }

  lemma SegmentsOfChildPath(prefix: string, name: string)
    requires name != "" && '/' !in name
    ensures Segments(ChildPath(prefix, name)) == Segments(prefix) + [name]
  {
    SegmentsOfName(name);
    if prefix != "" {
      SegmentsConcat(prefix, name);
    } else {
      SegmentsOfEmpty();
    }
  }

  /** The segments a listed path adds below its starting prefix lead, inside the listed directory, to the listed file. */
  predicate ListedBelow(es: seq<Entry>, prefix: string, l: Listed) {
    var p := Segments(prefix);
    var s := Segments(l.path);
    |p| < |s| && s[..|p|] == p && FileOf(Lookup(es, s[|p|..])) == Some(l.file)
  }

  lemma WellFormedTail(es: seq<Entry>)
    requires es != [] && WellFormed(es)
    ensures WellFormed(es[1..])
  {
    forall k | 0 <= k < |es[1..]|
      ensures match es[1..][k].node
              case File(_, q) => WellFormed(q)
              case Dir(d) => WellFormed(d)
    {
      EntryWellFormed(es, k + 1);
    }
  }

  lemma ListedBelowHeadFile(es: seq<Entry>, prefix: string)
    requires es != [] && es[0].node.File? && es[0].name != "" && '/' !in es[0].name
    ensures ListedBelow(es, prefix, Listed(es[0].node.file, es[0].name, ChildPath(prefix, es[0].name)))
  {
    SegmentsOfChildPath(prefix, es[0].name);
    var p := Segments(prefix);
    assert Segments(ChildPath(prefix, es[0].name))[|p|..] == [es[0].name];
  }

  lemma ListedBelowHeadDir(es: seq<Entry>, prefix: string, l: Listed)
    requires es != [] && es[0].node.Dir? && es[0].name != "" && '/' !in es[0].name
    requires ListedBelow(es[0].node.entries, ChildPath(prefix, es[0].name), l)
    ensures ListedBelow(es, prefix, l)
  {
    SegmentsOfChildPath(prefix, es[0].name);
    BelowHeadKeys(es, Segments(prefix), Segments(l.path), l.file);
  }

  /** The key-path form of `ListedBelowHeadDir`. */
  lemma BelowHeadKeys(es: seq<Entry>, p: seq<string>, s: seq<string>, f: FileRef)
    requires es != [] && es[0].node.Dir?
    requires |p| + 1 < |s| && s[..|p| + 1] == p + [es[0].name]
    requires FileOf(Lookup(es[0].node.entries, s[|p| + 1..])) == Some(f)
    ensures |p| < |s| && s[..|p|] == p && FileOf(Lookup(es, s[|p|..])) == Some(f)
  {
    assert s[..|p|] == s[..|p| + 1][..|p|];
    assert s[|p| + 1..] == s[|p|..][1..];
    assert s[|p|..][0] == s[..|p| + 1][|p|] == es[0].name;
    assert Get(es, es[0].name) == Some(es[0].node);
  }

  lemma ListedBelowTail(es: seq<Entry>, prefix: string, l: Listed)
    requires es != [] && WellFormed(es)
    requires ListedBelow(es[1..], prefix, l)
    ensures ListedBelow(es, prefix, l)
  {
    var p := Segments(prefix);
    var k := Segments(l.path)[|p|..];
    assert Get(es[1..], k[0]).Some?;
    var at := IndexOfName(es[1..], k[0]);
    assert es[at + 1].name == k[0];
    GetTail(es, k[0]);
  }

  predicate AllBelow(es: seq<Entry>, prefix: string, ls: seq<Listed>) {
    forall i :: 0 <= i < |ls| ==> ListedBelow(es, prefix, ls[i])
  }

  lemma AllBelowConcat(es: seq<Entry>, prefix: string, xs: seq<Listed>, ys: seq<Listed>)
    requires AllBelow(es, prefix, xs) && AllBelow(es, prefix, ys)
    ensures AllBelow(es, prefix, xs + ys)
  {
    assert forall i :: 0 <= i < |xs + ys| ==> (xs + ys)[i] == if i < |xs| then xs[i] else ys[i - |xs|];
  }

  lemma {:induction false} HeadLeadsToFile(es: seq<Entry>, prefix: string)
    requires es != [] && WellFormed(es)
    ensures AllBelow(es, prefix, match es[0].node
      case File(f, _) => [Listed(f, es[0].name, ChildPath(prefix, es[0].name))]
      case Dir(sub) => Listing(sub, ChildPath(prefix, es[0].name)))
    decreases es, 0
  {
    match es[0].node
    case File(f, _) =>
      ListedBelowHeadFile(es, prefix);
    case Dir(sub) =>
      var path := ChildPath(prefix, es[0].name);
      EntryWellFormed(es, 0);
      ListingLeadsToFile(sub, path);
      forall l | l in Listing(sub, path)
        ensures ListedBelow(es, prefix, l)
      {
        ListedBelowHeadDir(es, prefix, l);
      }
  }

  lemma {:induction false} TailLeadsToFile(es: seq<Entry>, prefix: string)
    requires es != [] && WellFormed(es)
    ensures AllBelow(es, prefix, Listing(es[1..], prefix))
    decreases es, 0
  {
    WellFormedTail(es);
    ListingLeadsToFile(es[1..], prefix);
    forall l | l in Listing(es[1..], prefix)
      ensures ListedBelow(es, prefix, l)
    {
      ListedBelowTail(es, prefix, l);
    }
  }

  lemma {:induction false} ListingLeadsToFile(es: seq<Entry>, prefix: string)
    requires WellFormed(es)
    ensures AllBelow(es, prefix, Listing(es, prefix))
    decreases es, 1
  {
    if es != [] {
      HeadLeadsToFile(es, prefix);
      TailLeadsToFile(es, prefix);
      AllBelowConcat(es, prefix, match es[0].node
        case File(f, _) => [Listed(f, es[0].name, ChildPath(prefix, es[0].name))]
        case Dir(sub) => Listing(sub, ChildPath(prefix, es[0].name)),
        Listing(es[1..], prefix));
    }
  }

  /** Every path `getAllFilesWithPaths` reports resolves, through `getFileFromTree`, to the file it was reported with. */
  lemma AllFilesWithPathsResolve(t: Tree, i: nat)
    requires WellFormed(t) && i < |AllFilesWithPaths(t)|
    ensures GetFileFromTree(t, AllFilesWithPaths(t)[i].path) == Some(AllFilesWithPaths(t)[i].file)
  {
    ListingLeadsToFile(t, "");
    SegmentsOfEmpty();
    var s := Segments(AllFilesWithPaths(t)[i].path);
    assert s[0..] == s;
  }

  // ---------------------------------------------------------------------------------------------
  // sub-directories

  lemma {:induction false} DirNamesAreDirs(es: seq<Entry>, n: string)
    requires WellFormed(es) && n in DirNames(es)
    ensures Get(es, n).Some? && Get(es, n).value.Dir?
    decreases es
  {
    if es[0].node.Dir? && n == es[0].name {
    } else {
      WellFormedTail(es);
      DirNamesAreDirs(es[1..], n);
      var at := IndexOfName(es[1..], n);
      assert es[at + 1].name == n;
      GetTail(es, n);
    }
  }

  lemma {:induction false} DirAtAppend(es: seq<Entry>, p: seq<string>, n: string)
    requires DirAt(es, p).Some?
    ensures DirAt(es, p + [n]) == DirAt(DirAt(es, p).value, [n])
    decreases |p|
  {
    if p != [] {
      assert (p + [n])[1..] == p[1..] + [n];
      DirAtAppend(Get(es, p[0]).value.entries, p[1..], n);
    }
  }

  lemma {:induction false} DirAtWellFormed(es: seq<Entry>, p: seq<string>)
    requires WellFormed(es) && DirAt(es, p).Some?
    ensures WellFormed(DirAt(es, p).value)
    decreases |p|
  {
    if p != [] {
      GetWellFormed(es, p[0]);
      DirAtWellFormed(Get(es, p[0]).value.entries, p[1..]);
    }
  }

  /** Every name `getSubdirectories(dirPath)` returns is a directory: `directoryExists(dirPath/name)` holds. */
  lemma SubdirectoriesExist(t: Tree, dirPath: string, n: string)
    requires WellFormed(t) && n in Subdirectories(t, dirPath)
    ensures DirectoryExists(t, ChildPath(dirPath, n))
  {
    var d := DirAt(t, Segments(dirPath)).value;
    DirAtWellFormed(t, Segments(dirPath));
    DirNamesAreDirs(d, n);
    var at := IndexOfName(d, n);
    SegmentsOfChildPath(dirPath, n);
    DirAtAppend(t, Segments(dirPath), n);
  }

  // ---------------------------------------------------------------------------------------------
  // counting and searching

  lemma {:induction false} ListingIgnoresPrefix(es: seq<Entry>, p: string, q: string)
    ensures |Listing(es, p)| == |Listing(es, q)|
    ensures forall i :: 0 <= i < |Listing(es, p)| ==>
      Listing(es, p)[i].file == Listing(es, q)[i].file && Listing(es, p)[i].key == Listing(es, q)[i].key
    decreases es
  {
    if es != [] {
      ListingIgnoresPrefix(es[1..], p, q);
      match es[0].node
      case File(_, _) =>
      case Dir(sub) =>
        ListingIgnoresPrefix(sub, ChildPath(p, es[0].name), ChildPath(q, es[0].name));
    }
  }

  lemma EndsWithBoth(s: string, x: string, y: string)
    requires EndsWith(s, x) && EndsWith(s, y) && |x| <= |y|
    ensures EndsWith(y, x)
  {
    assert y[|y| - |x|..] == s[|s| - |x|..];
  }

  lemma {:induction false} CountDisjoint(ls: seq<Listed>, e1: string, e2: string)
    requires !EndsWith(Lower(e1), Lower(e2)) && !EndsWith(Lower(e2), Lower(e1))
    ensures CountWithExtension(ls, e1) + CountWithExtension(ls, e2) <= |ls|
  {
    if ls != [] {
      CountDisjoint(ls[1..], e1, e2);
      var k := Lower(ls[0].key);
      if EndsWith(k, Lower(e1)) && EndsWith(k, Lower(e2)) {
        if |e1| <= |e2| {
          EndsWithBoth(k, Lower(e1), Lower(e2));
        } else {
          EndsWithBoth(k, Lower(e2), Lower(e1));
        }
      }
    }
  }

  /** Two extensions neither of which ends the other are never counted for the same file. */
  lemma ExtensionCountsDisjoint(t: Tree, dirPath: string, e1: string, e2: string)
    requires !EndsWith(Lower(e1), Lower(e2)) && !EndsWith(Lower(e2), Lower(e1))
    ensures CountFilesByExtension(t, dirPath, e1) + CountFilesByExtension(t, dirPath, e2)
         <= |AllFilesInDir(t, dirPath)|
  {
    if DirAt(t, Segments(dirPath)).Some? {
      CountDisjoint(Listing(DirAt(t, Segments(dirPath)).value, ""), e1, e2);
    }
  }

  lemma EndsWithLower(s: string, suffix: string)
    requires EndsWith(s, suffix)
    ensures EndsWith(Lower(s), Lower(suffix))
  {
    assert Lower(s)[|s| - |suffix|..] == Lower(suffix);
  }

  /** A case-sensitive `*.ext` search never finds more files than the case-insensitive extension count of the same folder. */
  lemma FindWithinCount(t: Tree, dirPath: string, ext: string)
    requires StartsWith(ext, ".")
    ensures |FindFilesInTree(t, dirPath, "*" + ext)| <= CountFilesByExtension(t, dirPath, ext)
  {
    match DirAt(t, Segments(dirPath))
    case None =>
    case Some(d) =>
      ListingIgnoresPrefix(d, dirPath, "");
      MatchingWithinCountPrefix(Listing(d, dirPath), Listing(d, ""), ext);
  }

  lemma {:induction false} MatchingWithinCountPrefix(ls: seq<Listed>, ms: seq<Listed>, ext: string)
    requires StartsWith(ext, ".") && |ls| == |ms|
    requires forall i :: 0 <= i < |ls| ==> ls[i].file == ms[i].file && ls[i].key == ms[i].key
    ensures |FilesMatching(ls, "*" + ext)| <= CountWithExtension(ms, ext)
  {
    if ls != [] {
      MatchingWithinCountPrefix(ls[1..], ms[1..], ext);
      var pattern := "*" + ext;
      assert StartsWith(pattern, "*.") && pattern[1..] == ext;
      if MatchesPattern(ls[0].key, pattern) {
        if ls[0].key == pattern {
          assert EndsWith(ls[0].key, ext);
        }
        EndsWithLower(ls[0].key, ext);
      }
    }
  }
}
