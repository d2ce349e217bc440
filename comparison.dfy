/**
 * The data behind the side-by-side comparison view (js/analyzer.js, `getTrajectoryComparisonData`):
 * each entity's action strings, each entity's evaluation score, and the similarity of every pair of
 * trajectories found, keyed `<earlier>_vs_<later>` in the order the entities were found.
 */
module Comparison {
  import opened Wrappers
  import opened Text
  import opened FileTree
  import opened FileManager
  import opened Inputs
  import opened Locators
  import opened Folders
  import opened Trajectories
  import ContentCriteria
  import ScoreCriteria

  /** The four entities, in the order they are looked for and shown. */
  const EntityKeys: seq<string> := ["sft", "annotator_1", "annotator_2", "annotator_3"]

  /** The entity names are the keys the scans store their data under. */
  lemma EntityKeysAreScanKeys()
    ensures EntityKeys[0] == SftKey
    ensures forall idx: nat :: 1 <= idx <= 3 ==> EntityKeys[idx] == AnnotatorKey(idx)
  {
    assert NatToString(1) == "1" && NatToString(2) == "2" && NatToString(3) == "3";
  }

  /** The position of a key among the entities; 4 for any other key. */
  function Rank(key: string): (r: nat)
    ensures r <= 4
    ensures r < 4 <==> key in EntityKeys
    ensures r < 4 ==> EntityKeys[r] == key
  {
    if key == EntityKeys[0] then 0
    else if key == EntityKeys[1] then 1
    else if key == EntityKeys[2] then 2
    else if key == EntityKeys[3] then 3
    else 4
  }

  /** The comparison result: `trajectories` (found ones only), `similarities` and `scores`. */
  datatype ComparisonData = ComparisonData(
    trajectories: seq<Keyed<seq<string>>>,
    similarities: seq<Keyed<real>>,
    scores: seq<Keyed<Option<Num>>>)

  /** `result[key]`: an entity's actions, the empty list when its trajectory was not found. */
  function Column(d: ComparisonData, key: string): seq<string> {
    ValueOf(d.trajectories, key).GetOr([])
  }

  /** `steps.map(step => String(step.action || ''))` of a folder's trajectory file, under `key`. */
  function ActionsEntry(t: Tree, env: Env, key: string, dir: string): (r: seq<Keyed<seq<string>>>)
    ensures |r| <= 1 && forall x :: x in r ==> x.key == key
    ensures r != [] <==> FindTrajectoryFile(t, dir).Some?
  {
    var f := FindTrajectoryFile(t, dir);
    if f.None? then [] else [Keyed(key, Actions(StepsOf(env, f)))]
  }

  /** The SFT trajectory, read from `SFT/Trajectory and Screenshot`. */
  function SftActions(t: Tree, env: Env): seq<Keyed<seq<string>>> {
    ActionsEntry(t, env, SftKey, SftTrajectoryDir)
  }

  /**
   * Annotator `idx`'s trajectory: the first spelling of its folder that exists decides, and its
   * `Trajectory and Screenshot` folder must exist too.
   */
  function AnnotatorActions(t: Tree, env: Env, root: string, idx: nat): (r: seq<Keyed<seq<string>>>)
    ensures |r| <= 1 && forall x :: x in r ==> x.key == AnnotatorKey(idx)
  {
    var folder := AnnotatorFolder(root, idx, IsDir(t));
    if folder.None? then []
    else
      var dir := ChildDir(folder.value, TrajectoryFolder);
      if !DirectoryExists(t, dir) then [] else ActionsEntry(t, env, AnnotatorKey(idx), dir)
  }

  function AnnotatorActionEntries(t: Tree, env: Env, root: string): nat -> seq<Keyed<seq<string>>> {
    (idx: nat) => AnnotatorActions(t, env, root, idx)
  }

  /** Annotator `idx`'s score: read from `evaluation_score.txt` in the same folder, null when either is missing. */
  function AnnotatorScore(t: Tree, env: Env, root: string, idx: nat): Option<Num> {
    var folder := AnnotatorFolder(root, idx, IsDir(t));
    if folder.None? then None else ScoreOf(env, GetFileFromTree(t, ChildDir(folder.value, ScoreFileName)))
  }

  /** The score slot of annotator `idx`; every slot is there from the start, null by default. */
  function AnnotatorScoreEntry(t: Tree, env: Env, root: string, idx: nat): seq<Keyed<Option<Num>>> {
    [Keyed(AnnotatorKey(idx), AnnotatorScore(t, env, root, idx))]
  }

  function AnnotatorScoreEntries(t: Tree, env: Env, root: string): nat -> seq<Keyed<Option<Num>>> {
    (idx: nat) => AnnotatorScoreEntry(t, env, root, idx)
  }

  /** The SFT score: the evaluation score file the locator finds in `SFT` for the task. */
  function SftScore(t: Tree, env: Env, taskId: Option<string>): Option<Num> {
    ScoreOf(env, FindEvaluationScore(t, SftFolder, taskId))
  }

  /** The trajectories found, in the order they enter `trajectories`: SFT, then annotators 1 to 3. */
  function TrajectoriesOf(t: Tree, env: Env): seq<Keyed<seq<string>>> {
    SftActions(t, env) + Collect(AnnotatorIndices, AnnotatorActionEntries(t, env, AnnotatorRootOf(t)))
  }

  function ScoresOf(t: Tree, env: Env, taskId: Option<string>): seq<Keyed<Option<Num>>> {
    [Keyed(SftKey, SftScore(t, env, taskId))] + Collect(AnnotatorIndices, AnnotatorScoreEntries(t, env, AnnotatorRootOf(t)))
  }

  // ---------------------------------------------------------------------------------------------
  // pairwise similarities

  function PairKey(first: string, second: string): string {
    first + ContentCriteria.PairSeparator + second
  }

  /** The similarity recorded for trajectories `i` and `j`. */
  function SimilarityEntry(ts: seq<Keyed<seq<string>>>, i: nat, j: nat): Keyed<real>
    requires i < |ts| && j < |ts|
  {
    Keyed(PairKey(ts[i].key, ts[j].key), ComparisonSimilarity(ts[i].value, ts[j].value))
  }

  /** Trajectory `i` against trajectories `i + 1` to `n - 1`. */
  function RowSimilarities(ts: seq<Keyed<seq<string>>>, i: nat, n: nat): seq<Keyed<real>>
    requires n <= |ts|
  {
    if n <= i + 1 then [] else RowSimilarities(ts, i, n - 1) + [SimilarityEntry(ts, i, n - 1)]
  }

  /** The rows of the first `m` trajectories. */
  function AllSimilarities(ts: seq<Keyed<seq<string>>>, m: nat): seq<Keyed<real>>
    requires m <= |ts|
  {
    if m == 0 then [] else AllSimilarities(ts, m - 1) + RowSimilarities(ts, m - 1, |ts|)
  }

  /** The whole comparison result. */
  function ComparisonDataOf(t: Tree, env: Env, taskId: Option<string>): ComparisonData {
    var ts := TrajectoriesOf(t, env);
    ComparisonData(ts, AllSimilarities(ts, |ts|), ScoresOf(t, env, taskId))
  }

  lemma {:induction false} RowSimilaritiesMember(ts: seq<Keyed<seq<string>>>, i: nat, n: nat, x: Keyed<real>)
    requires n <= |ts|
    ensures x in RowSimilarities(ts, i, n) <==> exists j :: i < j < n && x == SimilarityEntry(ts, i, j)
  {
    if n > i + 1 {
      RowSimilaritiesMember(ts, i, n - 1, x);
    }
  }

  lemma {:induction false} AllSimilaritiesMember(ts: seq<Keyed<seq<string>>>, m: nat, x: Keyed<real>)
    requires m <= |ts|
    ensures x in AllSimilarities(ts, m) <==> exists i, j :: 0 <= i < m && i < j < |ts| && x == SimilarityEntry(ts, i, j)
  {
    if m > 0 {
      AllSimilaritiesMember(ts, m - 1, x);
      RowSimilaritiesMember(ts, m - 1, |ts|, x);
      if x in RowSimilarities(ts, m - 1, |ts|) {
        var j :| m - 1 < j < |ts| && x == SimilarityEntry(ts, m - 1, j);
        assert 0 <= m - 1 < m && m - 1 < j < |ts| && x == SimilarityEntry(ts, m - 1, j);
      }
      if exists i, j :: 0 <= i < m && i < j < |ts| && x == SimilarityEntry(ts, i, j) {
        var i, j :| 0 <= i < m && i < j < |ts| && x == SimilarityEntry(ts, i, j);
        if i < m - 1 {
          assert x in AllSimilarities(ts, m - 1);
        } else {
          assert x in RowSimilarities(ts, m - 1, |ts|);
        }
      }
    }
  }

  /** A similarity is recorded exactly for each pair of trajectories, the earlier one first. */
  lemma SimilaritiesRecorded(ts: seq<Keyed<seq<string>>>, x: Keyed<real>)
    ensures x in AllSimilarities(ts, |ts|) <==> exists i, j :: 0 <= i < j < |ts| && x == SimilarityEntry(ts, i, j)
  {
    AllSimilaritiesMember(ts, |ts|, x);
  }

  // ---------------------------------------------------------------------------------------------
  // the order of the trajectories

  /** The keys appear in entity order, each at most once. */
  predicate Ordered<T>(ts: seq<Keyed<T>>) {
    forall i, j :: 0 <= i < j < |ts| ==> Rank(ts[i].key) < Rank(ts[j].key)
  }

  /** Every key is one of the four entity names. */
  predicate EntitiesOnly<T>(ts: seq<Keyed<T>>) {
    forall i :: 0 <= i < |ts| ==> Rank(ts[i].key) < 4
  }

  lemma RankOfEntity(a: nat)
    requires a < 4
    ensures Rank(EntityKeys[a]) == a
  {
    if a == 0 {
    } else if a == 1 {
    } else if a == 2 {
    } else {
    }
  }

  lemma {:induction false} CollectOrdered<T>(idxs: seq<nat>, entry: nat -> seq<Keyed<T>>)
    requires forall k, l :: 0 <= k < l < |idxs| ==> idxs[k] < idxs[l]
    requires forall k :: 0 <= k < |idxs| ==> |entry(idxs[k])| <= 1
    requires forall k, x :: 0 <= k < |idxs| && x in entry(idxs[k]) ==> Rank(x.key) == idxs[k]
    ensures Ordered(Collect(idxs, entry))
    ensures forall x :: x in Collect(idxs, entry) ==> Rank(x.key) in idxs
    decreases |idxs|
  {
    if idxs != [] {
      var n := |idxs| - 1;
      var front := idxs[..n];
      assert forall k :: 0 <= k < n ==> front[k] == idxs[k];
      CollectOrdered(front, entry);
      var a, b := Collect(front, entry), entry(idxs[n]);
      assert Collect(idxs, entry) == a + b;
      forall x | x in a ensures Rank(x.key) in idxs && Rank(x.key) < idxs[n] {
        var k :| 0 <= k < n && front[k] == Rank(x.key);
      }
      forall x | x in a + b ensures Rank(x.key) in idxs {
        if x in b {
          assert Rank(x.key) == idxs[n];
        }
      }
      forall i, j | 0 <= i < j < |a + b| ensures Rank((a + b)[i].key) < Rank((a + b)[j].key) {
        if j < |a| {
          assert (a + b)[i] == a[i] && (a + b)[j] == a[j];
        } else {
          assert (a + b)[i] == a[i] && a[i] in a;
          assert (a + b)[j] == b[0] && b[0] in b;
        }
      }
    }
  }

  /** Ordered entries followed by ordered entries of higher rank are ordered. */
  lemma OrderedConcat<T>(s: seq<Keyed<T>>, c: seq<Keyed<T>>, r: nat)
    requires Ordered(s) && Ordered(c)
    requires forall i :: 0 <= i < |s| ==> Rank(s[i].key) < r
    requires forall i :: 0 <= i < |c| ==> r <= Rank(c[i].key)
    ensures Ordered(s + c)
  {
    forall i, j | 0 <= i < j < |s + c| ensures Rank((s + c)[i].key) < Rank((s + c)[j].key) {
      if j < |s| {
        assert (s + c)[i] == s[i] && (s + c)[j] == s[j];
      } else if i < |s| {
        assert (s + c)[i] == s[i] && (s + c)[j] == c[j - |s|];
      } else {
        assert (s + c)[i] == c[i - |s|] && (s + c)[j] == c[j - |s|];
      }
    }
  }

  lemma AnnotatorKeyRank(idx: nat)
    requires 1 <= idx <= 3
    ensures Rank(AnnotatorKey(idx)) == idx
  {
    EntityKeysAreScanKeys();
    RankOfEntity(idx);
  }

  /** SFT's entry, then one entry at most per annotator under its own key, are in entity order. */
  lemma ScanInEntityOrder<T>(s: seq<Keyed<T>>, entry: nat -> seq<Keyed<T>>)
    requires |s| <= 1 && forall x :: x in s ==> x.key == SftKey
    requires forall idx: nat :: |entry(idx)| <= 1 && forall x :: x in entry(idx) ==> x.key == AnnotatorKey(idx)
    ensures Ordered(s + Collect(AnnotatorIndices, entry)) && EntitiesOnly(s + Collect(AnnotatorIndices, entry))
  {
    forall k, x | 0 <= k < |AnnotatorIndices| && x in entry(AnnotatorIndices[k]) ensures Rank(x.key) == AnnotatorIndices[k] {
      AnnotatorKeyRank(AnnotatorIndices[k]);
    }
    CollectOrdered(AnnotatorIndices, entry);
    var c := Collect(AnnotatorIndices, entry);
    forall i | 0 <= i < |c| ensures 1 <= Rank(c[i].key) <= 3 {
      assert c[i] in c;
    }
    forall i | 0 <= i < |s| ensures Rank(s[i].key) == 0 {
      assert s[i] in s;
    }
    OrderedConcat(s, c, 1);
    forall i | 0 <= i < |s + c| ensures Rank((s + c)[i].key) < 4 {
      if i < |s| {
        assert (s + c)[i] == s[i];
      } else {
        assert (s + c)[i] == c[i - |s|];
      }
    }
  }

  /**
   * The trajectories enter the result in entity order: SFT first, then the annotators by number, each
   * at most once, and under no key but the four entity names.
   */
  lemma TrajectoriesInEntityOrder(t: Tree, env: Env)
    ensures Ordered(TrajectoriesOf(t, env)) && EntitiesOnly(TrajectoriesOf(t, env))
  {
    ScanInEntityOrder(SftActions(t, env), AnnotatorActionEntries(t, env, AnnotatorRootOf(t)));
  }

  /** In an ordered list no key occurs twice. */
  lemma KeysDistinct<T>(ts: seq<Keyed<T>>)
    requires Ordered(ts)
    ensures forall i, j :: 0 <= i < |ts| && 0 <= j < |ts| && i != j ==> ts[i].key != ts[j].key
  {
    forall i, j | 0 <= i < |ts| && 0 <= j < |ts| && i != j ensures ts[i].key != ts[j].key {
      if i < j {
        assert Rank(ts[i].key) < Rank(ts[j].key);
      } else {
        assert Rank(ts[j].key) < Rank(ts[i].key);
      }
    }
  }

  // ---------------------------------------------------------------------------------------------
  // looking a pair up by name

  /** A pair's name tells which entity came first, and so which came second. */
  lemma PairKeyInjective(p: string, q: string, c: string, d: string)
    requires Rank(p) < 4 && Rank(c) < 4
    ensures PairKey(p, q) == PairKey(c, d) ==> p == c && q == d
  {
    var sep := ContentCriteria.PairSeparator;
    assert PairKey(p, q)[..|p|] == p && PairKey(c, d)[..|c|] == c;
    assert PairKey(p, q)[|p| + |sep|..] == q && PairKey(c, d)[|c| + |sep|..] == d;
    assert PairKey(p, q)[0] == p[0] && PairKey(c, d)[0] == c[0];
    assert |p| != |c| ==> p[0] != c[0];
  }

  /** The similarity named after trajectories `i` and `j` of entity-ordered trajectories is theirs. */
  lemma PairEntryNamed(ts: seq<Keyed<seq<string>>>, i: nat, j: nat, x: Keyed<real>)
    requires Ordered(ts) && EntitiesOnly(ts)
    requires i < |ts| && j < |ts|
    requires x in AllSimilarities(ts, |ts|) && x.key == PairKey(ts[i].key, ts[j].key)
    ensures i < j && x == SimilarityEntry(ts, i, j)
  {
    SimilaritiesRecorded(ts, x);
    var i', j' :| 0 <= i' < j' < |ts| && x == SimilarityEntry(ts, i', j');
    PairKeyInjective(ts[i'].key, ts[j'].key, ts[i].key, ts[j].key);
    KeysDistinct(ts);
  }

  /** No similarity is named after entities that never occur as an earlier and a later trajectory. */
  lemma UnnamedPair(ts: seq<Keyed<seq<string>>>, p: string, q: string, x: Keyed<real>)
    requires EntitiesOnly(ts) && Rank(p) < 4
    requires forall i, j :: 0 <= i < j < |ts| ==> ts[i].key != p || ts[j].key != q
    requires x in AllSimilarities(ts, |ts|)
    ensures x.key != PairKey(p, q)
  {
    SimilaritiesRecorded(ts, x);
    var i, j :| 0 <= i < j < |ts| && x == SimilarityEntry(ts, i, j);
    PairKeyInjective(ts[i].key, ts[j].key, p, q);
  }

  /** Two trajectories found: their pair's similarity is stored under `<first>_vs_<second>`. */
  lemma PairFound(ts: seq<Keyed<seq<string>>>, i: nat, j: nat)
    requires Ordered(ts) && EntitiesOnly(ts)
    requires i < j < |ts|
    ensures ValueOf(AllSimilarities(ts, |ts|), PairKey(ts[i].key, ts[j].key)) == Some(ComparisonSimilarity(ts[i].value, ts[j].value))
  {
    var sims := AllSimilarities(ts, |ts|);
    var key := PairKey(ts[i].key, ts[j].key);
    SimilaritiesRecorded(ts, SimilarityEntry(ts, i, j));
    var k :| 0 <= k < |sims| && sims[k] == SimilarityEntry(ts, i, j);
    var v := ValueOf(sims, key).value;
    var k' :| 0 <= k' < |sims| && sims[k'] == Keyed(key, v);
    assert sims[k'] in sims;
    PairEntryNamed(ts, i, j, sims[k']);
  }

  /** An entity absent as the earlier and the later partner: nothing is stored under their pair's name. */
  lemma PairMissing(ts: seq<Keyed<seq<string>>>, p: string, q: string)
    requires EntitiesOnly(ts) && Rank(p) < 4
    requires forall i, j :: 0 <= i < j < |ts| ==> ts[i].key != p || ts[j].key != q
    ensures ValueOf(AllSimilarities(ts, |ts|), PairKey(p, q)).None?
  {
    var sims := AllSimilarities(ts, |ts|);
    forall x | x in sims ensures x.key != PairKey(p, q) {
      UnnamedPair(ts, p, q, x);
    }
    forall k | 0 <= k < |sims| ensures sims[k].key != PairKey(p, q) {
      assert sims[k] in sims;
    }
    KeyAbsent(sims, PairKey(p, q));
  }

  lemma KeyAbsent<T>(xs: seq<Keyed<T>>, key: string)
    requires forall i :: 0 <= i < |xs| ==> xs[i].key != key
    ensures ValueOf(xs, key).None?
  {
  }

  /**
   * For two entities named in the order of `EntityKeys`, the similarity stored under
   * `<first>_vs_<second>` is the similarity of their actions when both trajectories were found, and
   * nothing is stored under that name otherwise.
   */
  lemma PairLookup(ts: seq<Keyed<seq<string>>>, a: nat, b: nat)
    requires Ordered(ts) && EntitiesOnly(ts)
    requires a < b < 4
    ensures var key := PairKey(EntityKeys[a], EntityKeys[b]);
      ValueOf(AllSimilarities(ts, |ts|), key) ==
        if ValueOf(ts, EntityKeys[a]).Some? && ValueOf(ts, EntityKeys[b]).Some?
        then Some(ComparisonSimilarity(ValueOf(ts, EntityKeys[a]).value, ValueOf(ts, EntityKeys[b]).value))
        else None
  {
    var p, q := EntityKeys[a], EntityKeys[b];
    RankOfEntity(a);
    RankOfEntity(b);
    if ValueOf(ts, p).Some? && ValueOf(ts, q).Some? {
      var i :| 0 <= i < |ts| && ts[i] == Keyed(p, ValueOf(ts, p).value);
      var j :| 0 <= j < |ts| && ts[j] == Keyed(q, ValueOf(ts, q).value);
      assert Rank(ts[i].key) < Rank(ts[j].key);
      PairFound(ts, i, j);
    } else {
      PairMissing(ts, p, q);
    }
  }

  /** Nothing is stored under a pair named in the reverse of entity order. */
  lemma ReversedPairAbsent(ts: seq<Keyed<seq<string>>>, a: nat, b: nat)
    requires Ordered(ts) && EntitiesOnly(ts)
    requires a < b < 4
    ensures ValueOf(AllSimilarities(ts, |ts|), PairKey(EntityKeys[b], EntityKeys[a])).None?
  {
    RankOfEntity(a);
    RankOfEntity(b);
    PairMissing(ts, EntityKeys[b], EntityKeys[a]);
  }

  // ---------------------------------------------------------------------------------------------
  // what each entity's slot holds

  /** Reading an annotator's key back from a scan over `idxs` gives what its index contributed. */
  lemma {:induction false} ScannedKey<T>(idxs: seq<nat>, entry: nat -> seq<Keyed<T>>, idx: nat)
    requires forall k :: 0 <= k < |idxs| ==> |entry(idxs[k])| <= 1
    requires forall k, x :: 0 <= k < |idxs| && x in entry(idxs[k]) ==> x.key == AnnotatorKey(idxs[k])
    ensures ValueOf(Collect(idxs, entry), AnnotatorKey(idx)) ==
      if idx in idxs && entry(idx) != [] then Some(entry(idx)[0].value) else None
    decreases |idxs|
  {
    if idxs != [] {
      var n := |idxs| - 1;
      var front := idxs[..n];
      assert forall k :: 0 <= k < n ==> front[k] == idxs[k];
      ScannedKey(front, entry, idx);
      ValueOfConcat(Collect(front, entry), entry(idxs[n]), AnnotatorKey(idx));
      ScoreCriteria.AnnotatorKeyInjective(idxs[n], idx);
      assert idxs == front + [idxs[n]];
      assert entry(idxs[n]) != [] ==> entry(idxs[n])[0] in entry(idxs[n]);
    }
  }

  /**
   * The SFT column holds the actions of the SFT trajectory file when there is one; annotator `idx`'s
   * column holds the actions of the trajectory file in its first existing folder's `Trajectory and
   * Screenshot` folder; the other columns are empty.
   */
  lemma ColumnsRead(t: Tree, env: Env, taskId: Option<string>, idx: nat)
    ensures var d := ComparisonDataOf(t, env, taskId);
      ValueOf(d.trajectories, SftKey) == (if FindTrajectoryFile(t, SftTrajectoryDir).Some?
        then Some(Actions(StepsOf(env, FindTrajectoryFile(t, SftTrajectoryDir)))) else None)
    ensures var d := ComparisonDataOf(t, env, taskId);
      ValueOf(d.trajectories, AnnotatorKey(idx)) ==
        if idx in AnnotatorIndices && AnnotatorActions(t, env, AnnotatorRootOf(t), idx) != []
        then Some(AnnotatorActions(t, env, AnnotatorRootOf(t), idx)[0].value) else None
  {
    var entry := AnnotatorActionEntries(t, env, AnnotatorRootOf(t));
    var s := SftActions(t, env);
    assert TrajectoriesOf(t, env) == s + Collect(AnnotatorIndices, entry);
    SftThenAnnotators(s, AnnotatorIndices, entry, idx);
    if s != [] {
      assert s[0].key == SftKey;
    }
  }

  /** SFT's entries followed by a scan of annotator entries: each key reads back its own part. */
  lemma SftThenAnnotators<T>(s: seq<Keyed<T>>, idxs: seq<nat>, entry: nat -> seq<Keyed<T>>, idx: nat)
    requires forall x :: x in s ==> x.key == SftKey
    requires forall k :: 0 <= k < |idxs| ==> |entry(idxs[k])| <= 1
    requires forall k, x :: 0 <= k < |idxs| && x in entry(idxs[k]) ==> x.key == AnnotatorKey(idxs[k])
    ensures ValueOf(s + Collect(idxs, entry), SftKey) == ValueOf(s, SftKey)
    ensures ValueOf(s + Collect(idxs, entry), AnnotatorKey(idx)) ==
      if idx in idxs && entry(idx) != [] then Some(entry(idx)[0].value) else None
  {
    var c := Collect(idxs, entry);
    ValueOfConcat(s, c, SftKey);
    ValueOfConcat(s, c, AnnotatorKey(idx));
    SftKeyNotAnnotatorKey(idx);
    assert forall i :: 0 <= i < |s| ==> s[i] in s;
    KeyAbsent(s, AnnotatorKey(idx));
    forall i | 0 <= i < |c| ensures c[i].key != SftKey {
      CollectMember(idxs, entry, c[i]);
      var k :| 0 <= k < |idxs| && c[i] in entry(idxs[k]);
      SftKeyNotAnnotatorKey(idxs[k]);
    }
    KeyAbsent(c, SftKey);
    ScannedKey(idxs, entry, idx);
  }

  /** Every score slot is present: SFT's from the locator, each annotator's from its folder. */
  lemma ScoresRead(t: Tree, env: Env, taskId: Option<string>, idx: nat)
    requires idx in AnnotatorIndices
    ensures var d := ComparisonDataOf(t, env, taskId);
      ValueOf(d.scores, SftKey) == Some(SftScore(t, env, taskId))
    ensures var d := ComparisonDataOf(t, env, taskId);
      ValueOf(d.scores, AnnotatorKey(idx)) == Some(AnnotatorScore(t, env, AnnotatorRootOf(t), idx))
  {
    var entry := AnnotatorScoreEntries(t, env, AnnotatorRootOf(t));
    var s := [Keyed(SftKey, SftScore(t, env, taskId))];
    var c := Collect(AnnotatorIndices, entry);
    assert ScoresOf(t, env, taskId) == s + c;
    ValueOfConcat(s, c, AnnotatorKey(idx));
    SftKeyNotAnnotatorKey(idx);
    ScannedKey(AnnotatorIndices, entry, idx);
  }

  // ---------------------------------------------------------------------------------------------
  // the procedure

  method ReadAnnotator(t: Tree, env: Env, root: string, idx: nat) returns (acts: seq<Keyed<seq<string>>>, score: seq<Keyed<Option<Num>>>)
    ensures acts == AnnotatorActions(t, env, root, idx)
    ensures score == AnnotatorScoreEntry(t, env, root, idx)
  {
    var folder := FindAnnotatorFolder(root, idx, IsDir(t));
    acts := [];
    var value: Option<Num> := None;
    if folder.Some? {
      var dir := ChildDir(folder.value, TrajectoryFolder);
      if DirectoryExists(t, dir) {
        var f := FindTrajectoryFile(t, dir);
        if f.Some? {
          acts := [Keyed(AnnotatorKey(idx), Actions(StepsOf(env, f)))];
        }
      }
      var scoreFile := GetFileFromTree(t, ChildDir(folder.value, ScoreFileName));
      if scoreFile.Some? {
        value := ParseEvaluationScore(env, env.text(scoreFile.value));
      }
    }
    score := [Keyed(AnnotatorKey(idx), value)];
  }

  method ScanAnnotators(t: Tree, env: Env, root: string, idxs: seq<nat>) returns (ts: seq<Keyed<seq<string>>>, scores: seq<Keyed<Option<Num>>>)
    ensures ts == Collect(idxs, AnnotatorActionEntries(t, env, root))
    ensures scores == Collect(idxs, AnnotatorScoreEntries(t, env, root))
  {
    ts, scores := [], [];
    for k := 0 to |idxs|
      invariant ts == Collect(idxs[..k], AnnotatorActionEntries(t, env, root))
      invariant scores == Collect(idxs[..k], AnnotatorScoreEntries(t, env, root))
    {
      var acts, score := ReadAnnotator(t, env, root, idxs[k]);
      CollectSnoc(idxs, k, AnnotatorActionEntries(t, env, root));
      CollectSnoc(idxs, k, AnnotatorScoreEntries(t, env, root));
      ts, scores := ts + acts, scores + score;
    }
    assert idxs[..|idxs|] == idxs;
  }

  /** The inner loop: trajectory `i` against every later one. */
  method CompareRow(ts: seq<Keyed<seq<string>>>, i: nat) returns (row: seq<Keyed<real>>)
    requires i < |ts|
    ensures row == RowSimilarities(ts, i, |ts|)
  {
    row := [];
    for j := i + 1 to |ts|
      invariant row == RowSimilarities(ts, i, j)
    {
      var common := AlignedMatches(ts[i].value, ts[j].value, Min(|ts[i].value|, |ts[j].value|), true);
      var maxLen := Max(|ts[i].value|, |ts[j].value|);
      var similarity := if maxLen > 0 then common as real / maxLen as real else 0.0;
      row := row + [Keyed(ts[i].key + ContentCriteria.PairSeparator + ts[j].key, similarity)];
    }
  }

  method ComputeSimilarities(ts: seq<Keyed<seq<string>>>) returns (sims: seq<Keyed<real>>)
    ensures sims == AllSimilarities(ts, |ts|)
  {
    sims := [];
    for i := 0 to |ts|
      invariant sims == AllSimilarities(ts, i)
    {
      var row := CompareRow(ts, i);
      sims := sims + row;
    }
  }

  /** `getTrajectoryComparisonData(taskId)`. */
  method GetTrajectoryComparisonData(t: Tree, env: Env, taskId: Option<string>) returns (d: ComparisonData)
    ensures d == ComparisonDataOf(t, env, taskId)
  {
    var sft: seq<Keyed<seq<string>>> := [];
    var f := FindTrajectoryFile(t, SftTrajectoryDir);
    if f.Some? {
      sft := [Keyed(SftKey, Actions(StepsOf(env, f)))];
    }
    var sftScore := ScoreOf(env, FindEvaluationScore(t, SftFolder, taskId));
    var root := ResolveAnnotatorRoot(t);
    var annotators, scores := ScanAnnotators(t, env, root, AnnotatorIndices);
    var ts := sft + annotators;
    var sims := ComputeSimilarities(ts);
    d := ComparisonData(ts, sims, [Keyed(SftKey, sftScore)] + scores);
  }
}
