/**
 * Where the analyzer looks for each entity's folder: the annotator root under one of three
 * spellings, each annotator's folder under five, and a model's run folders `run_01`/`run_1` up to
 * `run_16`. Every search takes the first candidate that passes its test and stops there.
 */
module Folders {
  import opened Wrappers
  import opened Text
  import opened FileTree
  import opened FileManager

  const SftFolder := "SFT"
  const TrajectoryFolder := "Trajectory and Screenshot"
  const ColabFolder := "Colab"
  const SftTrajectoryDir := "SFT/Trajectory and Screenshot"
  const SftColabDir := "SFT/Colab"
  const ResultFileName := "result.txt"

  /** The default annotator root and the spellings tried, in order, when it does not exist. */
  const DefaultAnnotatorRoot := "Annotator Trajectory"
  const AlternativeAnnotatorRoots := ["Annotator_trajectory", "Annotator trajectory"]
  const AnnotatorRoots := [DefaultAnnotatorRoot] + AlternativeAnnotatorRoots

  const AnnotatorIndices: seq<nat> := [1, 2, 3]
  const FirstRun: nat := 1
  const LastRun: nat := 16

  // ---------------------------------------------------------------------------------------------
  // results keyed by entity

  /** One property of a result object: `result[key] = value`, kept in insertion order. */
  datatype Keyed<T> = Keyed(key: string, value: T)

  const SftKey := "sft"

  /** `obj[key]`: the value stored under `key`, if any. */
  function ValueOf<T>(xs: seq<Keyed<T>>, key: string): (r: Option<T>)
    ensures r.Some? ==> exists i :: 0 <= i < |xs| && xs[i] == Keyed(key, r.value)
    ensures r.None? ==> forall i :: 0 <= i < |xs| ==> xs[i].key != key
  {
    if xs == [] then None
    else if xs[0].key == key then Some(xs[0].value)
    else
      var r := ValueOf(xs[1..], key);
      assert forall i :: 1 <= i < |xs| ==> xs[1..][i - 1] == xs[i];
      r
  }

  function KeysOf<T>(xs: seq<Keyed<T>>): (ks: seq<string>)
    ensures |ks| == |xs| && forall i :: 0 <= i < |xs| ==> ks[i] == xs[i].key
  {
    seq(|xs|, i requires 0 <= i < |xs| => xs[i].key)
  }

  /** Reading a property of `a + b` finds it in `a` first. */
  lemma {:induction false} ValueOfConcat<T>(a: seq<Keyed<T>>, b: seq<Keyed<T>>, key: string)
    ensures ValueOf(a + b, key) == if ValueOf(a, key).Some? then ValueOf(a, key) else ValueOf(b, key)
    decreases |a|
  {
    if a != [] {
      assert (a + b)[1..] == a[1..] + b;
      ValueOfConcat(a[1..], b, key);
    } else {
      assert a + b == b;
    }
  }

  /** The entries collected by a scan over `idxs` in order, each index contributing what `entry` gives it. */
  function Collect<T>(idxs: seq<nat>, entry: nat -> seq<T>): seq<T>
    decreases |idxs|
  {
    if idxs == [] then [] else Collect(idxs[..|idxs| - 1], entry) + entry(idxs[|idxs| - 1])
  }

  /** One more index of the scan adds its entries at the end. */
  lemma CollectSnoc<T>(idxs: seq<nat>, k: nat, entry: nat -> seq<T>)
    requires k < |idxs|
    ensures Collect(idxs[..k + 1], entry) == Collect(idxs[..k], entry) + entry(idxs[k])
  {
    assert idxs[..k + 1][..k] == idxs[..k];
  }

  /** An entry is collected exactly when one of the scanned indices contributes it. */
  lemma {:induction false} CollectMember<T>(idxs: seq<nat>, entry: nat -> seq<T>, x: T)
    ensures x in Collect(idxs, entry) <==> exists k :: 0 <= k < |idxs| && x in entry(idxs[k])
    decreases |idxs|
  {
    if idxs != [] {
      var n := |idxs| - 1;
      CollectMember(idxs[..n], entry, x);
      assert forall k :: 0 <= k < n ==> idxs[..n][k] == idxs[k];
    }
  }

  /** When each index contributes as many entries to `c` as to `a` and `b` together, so does the whole scan. */
  lemma {:induction false} CollectLengthSum<A, B, C>(idxs: seq<nat>, a: nat -> seq<A>, b: nat -> seq<B>, c: nat -> seq<C>)
    requires forall k :: 0 <= k < |idxs| ==> |a(idxs[k])| + |b(idxs[k])| == |c(idxs[k])|
    ensures |Collect(idxs, a)| + |Collect(idxs, b)| == |Collect(idxs, c)|
    decreases |idxs|
  {
    if idxs != [] {
      var n := |idxs| - 1;
      assert forall k :: 0 <= k < n ==> idxs[..n][k] == idxs[k];
      CollectLengthSum(idxs[..n], a, b, c);
    }
  }

  /** When each index contributes no more entries to `a` than to `b`, neither does the whole scan. */
  lemma {:induction false} CollectLengthLe<A, B>(idxs: seq<nat>, a: nat -> seq<A>, b: nat -> seq<B>)
    requires forall k :: 0 <= k < |idxs| ==> |a(idxs[k])| <= |b(idxs[k])|
    ensures |Collect(idxs, a)| <= |Collect(idxs, b)|
    decreases |idxs|
  {
    if idxs != [] {
      var n := |idxs| - 1;
      assert forall k :: 0 <= k < n ==> idxs[..n][k] == idxs[k];
      CollectLengthLe(idxs[..n], a, b);
    }
  }

  // ---------------------------------------------------------------------------------------------
  // first candidate that passes a test

  /** The index of the first candidate that passes `ok`. */
  function FirstWhere(vs: seq<string>, ok: string -> bool): (r: Option<nat>)
    ensures r.Some? ==> r.value < |vs| && ok(vs[r.value]) && forall j :: 0 <= j < r.value ==> !ok(vs[j])
    ensures r.None? ==> forall j :: 0 <= j < |vs| ==> !ok(vs[j])
  {
    if vs == [] then None
    else if ok(vs[0]) then Some(0)
    else
      var r := FirstWhere(vs[1..], ok);
      assert forall j :: 1 <= j < |vs| ==> vs[1..][j - 1] == vs[j];
      if r.None? then None else Some(r.value + 1)
  }

  /** The candidate loop of each folder search: `for (const v of vs) { if (ok(v)) { ...; break; } }`. */
  method FindFirst(vs: seq<string>, ok: string -> bool) returns (r: Option<nat>)
    ensures r == FirstWhere(vs, ok)
  {
    r := None;
    var k := 0;
    while k < |vs|
      invariant 0 <= k <= |vs|
      invariant forall j :: 0 <= j < k ==> !ok(vs[j])
    {
      if ok(vs[k]) {
        r := Some(k);
        break;
      }
      k := k + 1;
    }
    FirstWhereIsFirst(vs, ok, r);
  }

  /** The first passing candidate is determined by the tests alone. */
  lemma FirstWhereIsFirst(vs: seq<string>, ok: string -> bool, r: Option<nat>)
    requires r.Some? ==> r.value < |vs| && ok(vs[r.value]) && forall j :: 0 <= j < r.value ==> !ok(vs[j])
    requires r.None? ==> forall j :: 0 <= j < |vs| ==> !ok(vs[j])
    ensures r == FirstWhere(vs, ok)
  {
  }

  // ---------------------------------------------------------------------------------------------
  // the annotator root

  /** The annotator root the criteria use: the default if it exists, else the first existing alternative, else the default. */
  function AnnotatorRootOf(t: Tree): string {
    if DirectoryExists(t, DefaultAnnotatorRoot) then DefaultAnnotatorRoot
    else
      match FirstWhere(AlternativeAnnotatorRoots, d => DirectoryExists(t, d))
      case None => DefaultAnnotatorRoot
      case Some(i) => AlternativeAnnotatorRoots[i]
  }

  /** The root-resolution prologue each criterion repeats. */
  method ResolveAnnotatorRoot(t: Tree) returns (root: string)
    ensures root == AnnotatorRootOf(t)
  {
    root := DefaultAnnotatorRoot;
    if !DirectoryExists(t, DefaultAnnotatorRoot) {
      var i := FindFirst(AlternativeAnnotatorRoots, d => DirectoryExists(t, d));
      if i.Some? {
        root := AlternativeAnnotatorRoots[i.value];
      }
    }
  }

  /**
   * The root is one of the three spellings; one that exists is preferred to one that does not, and
   * among existing ones the earlier spelling wins.
   */
  lemma AnnotatorRootChoice(t: Tree)
    ensures AnnotatorRootOf(t) in AnnotatorRoots
    ensures DirectoryExists(t, DefaultAnnotatorRoot) ==> AnnotatorRootOf(t) == DefaultAnnotatorRoot
    ensures !DirectoryExists(t, DefaultAnnotatorRoot) && DirectoryExists(t, AnnotatorRoots[1]) ==>
      AnnotatorRootOf(t) == AnnotatorRoots[1]
    ensures (!DirectoryExists(t, DefaultAnnotatorRoot) && !DirectoryExists(t, AnnotatorRoots[1])
             && DirectoryExists(t, AnnotatorRoots[2])) ==> AnnotatorRootOf(t) == AnnotatorRoots[2]
    ensures (forall i :: 0 <= i < |AnnotatorRoots| ==> !DirectoryExists(t, AnnotatorRoots[i])) ==>
      AnnotatorRootOf(t) == DefaultAnnotatorRoot
  {
    var ok := (d: string) => DirectoryExists(t, d);
    var f := FirstWhere(AlternativeAnnotatorRoots, ok);
    assert AlternativeAnnotatorRoots[0] == AnnotatorRoots[1] && AlternativeAnnotatorRoots[1] == AnnotatorRoots[2];
    if f.Some? {
      assert f.value == 0 || f.value == 1;
    }
  }

  // ---------------------------------------------------------------------------------------------
  // the annotator folders

  /** The five folder spellings tried for annotator `idx`, in order. */
  function Variants(idx: nat): (vs: seq<string>)
    ensures |vs| == 5
  {
    var n := NatToString(idx);
    ["annotator" + n, "annotator_" + n, "annotaor_" + n, "annotaor" + n, "annotator" + PadZero(n, 2)]
  }

  /** The key an annotator's data is stored under: `annotator_${idx}`. */
  function AnnotatorKey(idx: nat): string {
    "annotator_" + NatToString(idx)
  }

  lemma SftKeyNotAnnotatorKey(idx: nat)
    ensures SftKey != AnnotatorKey(idx)
  {
    assert AnnotatorKey(idx)[0] == 'a';
  }

  function ChildDir(dir: string, name: string): string {
    dir + "/" + name
  }

  /** The folder tests that end a variant search: the folder exists, ... */
  function IsDir(t: Tree): string -> bool {
    d => DirectoryExists(t, d)
  }

  /** ... it exists and holds `evaluation_score.txt` (criteria 2 and 3), ... */
  function HasScoreFile(t: Tree): string -> bool {
    d => DirectoryExists(t, d) && GetFileFromTree(t, ChildDir(d, ScoreFileName)).Some?
  }

  /** ... or its `Trajectory and Screenshot` folder exists (criteria 5, 9 and 10). */
  function HasTrajectoryDir(t: Tree): string -> bool {
    d => DirectoryExists(t, ChildDir(d, TrajectoryFolder))
  }

  /** The first spelling of annotator `idx`'s folder under `root` whose path passes `ok`. */
  function AnnotatorFolder(root: string, idx: nat, ok: string -> bool): (r: Option<string>)
    ensures r.Some? ==> exists i :: (0 <= i < 5 && r.value == ChildDir(root, Variants(idx)[i]) && ok(r.value)
                                     && forall j :: 0 <= j < i ==> !ok(ChildDir(root, Variants(idx)[j])))
    ensures r.None? ==> forall i :: 0 <= i < 5 ==> !ok(ChildDir(root, Variants(idx)[i]))
  {
    match FirstWhere(Variants(idx), v => ok(ChildDir(root, v)))
    case None => None
    case Some(i) => Some(ChildDir(root, Variants(idx)[i]))
  }

  /** The variant loop of the criteria for one annotator. */
  method FindAnnotatorFolder(root: string, idx: nat, ok: string -> bool) returns (r: Option<string>)
    ensures r == AnnotatorFolder(root, idx, ok)
  {
    var vs := Variants(idx);
    var i := FindFirst(vs, v => ok(ChildDir(root, v)));
    r := if i.Some? then Some(ChildDir(root, vs[i.value])) else None;
  }

  // ---------------------------------------------------------------------------------------------
  // the model's run folders

  /** The two names tried for run `i`: zero-padded first, then plain (the same name from 10 on). */
  function RunNames(i: nat): seq<string> {
    ["run_" + PadZero(NatToString(i), 2), "run_" + NatToString(i)]
  }

  /** The run folder of index `i` under the model folder: the first of its names that exists. */
  function RunFolder(t: Tree, model: string, i: nat): (r: Option<string>)
    ensures r.Some? ==> exists k :: 0 <= k < 2 && r.value == RunNames(i)[k] && DirectoryExists(t, ChildDir(model, r.value))
    ensures r.None? ==> forall k :: 0 <= k < 2 ==> !DirectoryExists(t, ChildDir(model, RunNames(i)[k]))
  {
    match FirstWhere(RunNames(i), n => DirectoryExists(t, ChildDir(model, n)))
    case None => None
    case Some(k) => Some(RunNames(i)[k])
  }

  /** The run-name loop of criteria 6 to 9 for one index. */
  method FindRunFolder(t: Tree, model: string, i: nat) returns (r: Option<string>)
    ensures r == RunFolder(t, model, i)
  {
    var names := RunNames(i);
    var k := FindFirst(names, n => DirectoryExists(t, ChildDir(model, n)));
    r := if k.Some? then Some(names[k.value]) else None;
  }

  /** `trajDir` of a run: its `Trajectory and Screenshot` folder if that exists, else the run folder itself. */
  function RunTrajectoryDir(t: Tree, runDir: string): (d: string)
    ensures d == runDir || (d == ChildDir(runDir, TrajectoryFolder) && DirectoryExists(t, d))
  {
    var inner := ChildDir(runDir, TrajectoryFolder);
    if DirectoryExists(t, inner) then inner else runDir
  }

  /** The result file of a run folder, looked up in its trajectory directory. */
  function RunResultFile(t: Tree, runDir: string): Option<FileRef> {
    GetFileFromTree(t, ChildDir(RunTrajectoryDir(t, runDir), ResultFileName))
  }

  /** The entries of the run scan over `FirstRun .. FirstRun + n - 1`, in order, each run contributing what `entry` gives it. */
  function RunScan<T>(n: nat, entry: nat -> seq<T>): seq<T> {
    if n == 0 then [] else RunScan(n - 1, entry) + entry(FirstRun + n - 1)
  }

  lemma RunScanNext<T>(n: nat, entry: nat -> seq<T>)
    ensures RunScan(n + 1, entry) == RunScan(n, entry) + entry(FirstRun + n)
  {
  }

  /** One step of a loop that appends the entry of run `FirstRun + n` to the scan of the first `n` runs. */
  lemma RunScanStep<T>(n: nat, entry: nat -> seq<T>, acc: seq<T>, e: seq<T>)
    requires acc == RunScan(n, entry) && e == entry(FirstRun + n)
    ensures acc + e == RunScan(n + 1, entry)
  {
  }

  /** An entry is collected exactly when one of the runs scanned contributes it. */
  lemma {:induction false} RunScanMember<T>(n: nat, entry: nat -> seq<T>, x: T)
    ensures x in RunScan(n, entry) <==> exists i :: FirstRun <= i < FirstRun + n && x in entry(i)
  {
    if n > 0 {
      RunScanMember(n - 1, entry, x);
    }
  }

  /** When each run contributes as many entries to `c` as to `a` and `b` together, so does the whole scan. */
  lemma {:induction false} RunScanLengthSum<A, B, C>(n: nat, a: nat -> seq<A>, b: nat -> seq<B>, c: nat -> seq<C>)
    requires forall i :: FirstRun <= i < FirstRun + n ==> |a(i)| + |b(i)| == |c(i)|
    ensures |RunScan(n, a)| + |RunScan(n, b)| == |RunScan(n, c)|
  {
    if n > 0 {
      RunScanLengthSum(n - 1, a, b, c);
    }
  }

  /** When each run contributes no more entries to `a` than to `b`, neither does the whole scan. */
  lemma {:induction false} RunScanLengthLe<A, B>(n: nat, a: nat -> seq<A>, b: nat -> seq<B>)
    requires forall i :: FirstRun <= i < FirstRun + n ==> |a(i)| <= |b(i)|
    ensures |RunScan(n, a)| <= |RunScan(n, b)|
  {
    if n > 0 {
      RunScanLengthLe(n - 1, a, b);
    }
  }

  /** When each run contributes at most one entry, the scan holds at most one per run. */
  lemma {:induction false} RunScanAtMostOne<T>(n: nat, entry: nat -> seq<T>)
    requires forall i :: FirstRun <= i < FirstRun + n ==> |entry(i)| <= 1
    ensures |RunScan(n, entry)| <= n
  {
    if n > 0 {
      RunScanAtMostOne(n - 1, entry);
    }
  }
}
