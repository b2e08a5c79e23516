/** Splitting the test suite over CI shards: `_shard_of` and the collection hook. */
module Shards {
  import opened Basics
  import opened Ordering
  import opened ShardBalance

  /** One entry of the `files` dict; a dict is a sequence of entries in insertion
      order, no path twice. */
  datatype File = File(path: string, n: nat)

  type Files = s: seq<File> | DistinctPaths(s) witness []

  predicate DistinctPaths(s: seq<File>) {
    forall i, j :: 0 <= i < j < |s| ==> s[i].path != s[j].path
  }

  /** The sort key `(-count, path)`. */
  predicate Before(a: File, b: File) {
    a.n > b.n || (a.n == b.n && StrLeq(a.path, b.path))
  }

  lemma BeforeIsAnOrder()
    ensures Preorder(Before)
  {
    forall a, b ensures Before(a, b) || Before(b, a) {
      StrLeqTotal(a.path, b.path);
    }
    forall a, b, c | Before(a, b) && Before(b, c) ensures Before(a, c) {
      if a.n == b.n == c.n {
        StrLeqTransitive(a.path, b.path, c.path);
      }
    }
  }

  lemma BeforeIsKeyed(s: seq<File>)
    ensures Keyed(s, Before)
  {
    forall a, b | Before(a, b) && Before(b, a) ensures a == b {
      StrLeqTotal(a.path, b.path);
    }
  }

  /** Files go largest first, and those of one size in dictionary order. */
  lemma FilesInOrder(files: seq<File>, i: nat, j: nat)
    requires i < j < |files|
    ensures var order := Sort(files, Before);
            order[i].n > order[j].n
            || (order[i].n == order[j].n && InDictionaryOrder(order[i].path, order[j].path))
  {
    BeforeIsAnOrder();
    SortSorts(files, Before);
    var order := Sort(files, Before);
    assert Before(order[i], order[j]);
    StrLeqIsDictionaryOrder(order[i].path, order[j].path);
  }

  function Weights(s: seq<File>): (ws: seq<nat>)
    ensures |ws| == |s|
  {
    seq(|s|, k requires 0 <= k < |s| => s[k].n)
  }

  /** The dict `{s[k].path: asg[k]}`. */
  function Assigned(s: seq<File>, asg: seq<nat>): map<string, nat>
    requires |s| == |asg|
  {
    if s == [] then map[]
    else
      var k := |s| - 1;
      Assigned(s[..k], asg[..k])[s[k].path := asg[k]]
  }

  lemma {:induction false} AssignedAt(s: seq<File>, asg: seq<nat>, k: nat)
    requires |s| == |asg| && DistinctPaths(s) && k < |s|
    ensures s[k].path in Assigned(s, asg) && Assigned(s, asg)[s[k].path] == asg[k]
  {
    if k < |s| - 1 {
      AssignedAt(s[..|s| - 1], asg[..|s| - 1], k);
    }
  }

  /** What `_shard_of(files, shards)` answers, for at least one shard. */
  function ShardMap(files: seq<File>, shards: nat): map<string, nat>
    requires shards > 0
  {
    var order := Sort(files, Before);
    Assigned(order, Greedy(Weights(order), shards))
  }

  method IndexOfMin(load: seq<nat>) returns (i: nat)
    requires load != []
    ensures i == Lightest(load)
  {
    i := 0;
    assert load[..1][..0] == [];
    for k := 1 to |load|
      invariant i == Lightest(load[..k])
    {
      assert load[..k + 1][..k] == load[..k];
      if load[k] < load[i] {
        i := k;
      }
    }
    assert load[..|load|] == load;
  }

  /** Each test file's shard. `None` is Python's error for a file with no shard to
      go to (`min` of an empty list). */
  method ShardOf(files: Files, shards: int) returns (out: Option<map<string, nat>>)
    ensures out.None? <==> shards <= 0 && files != []
    ensures shards > 0 ==> out == Some(ShardMap(files, shards))
    ensures files == [] ==> out == Some(map[])
  {
    var order := Sort(files, Before);
    if shards <= 0 {
      return if order == [] then Some(map[]) else None;
    }
    var r := Place(order, shards);
    return Some(r);
  }

  lemma AssignedNext(order: seq<File>, asg: seq<nat>, k: nat)
    requires |asg| == |order| && k < |order|
    ensures Assigned(order[..k + 1], asg[..k + 1]) == Assigned(order[..k], asg[..k])[order[k].path := asg[k]]
  {
    assert order[..k + 1][..k] == order[..k] && asg[..k + 1][..k] == asg[..k];
  }

  /** The loop of `_shard_of`: `load` and `out` as the files arrive. */
  method Place(order: seq<File>, shards: nat) returns (out: map<string, nat>)
    requires shards > 0
    ensures out == Assigned(order, Greedy(Weights(order), shards))
  {
    ghost var ws := Weights(order);
    ghost var asg := Greedy(ws, shards);
    var load: seq<nat> := seq(shards, _ => 0);
    out := map[];
    NothingPlaced(ws, asg, shards, load);
    for k := 0 to |order|
      invariant load == Loads(ws[..k], asg[..k], shards)
      invariant out == Assigned(order[..k], asg[..k])
    {
      var i := IndexOfMin(load);
      GreedyAt(ws, shards, k);
      PlacedNext(ws, asg, shards, k, load, i);
      AssignedNext(order, asg, k);
      out := out[order[k].path := i];
      load := load[i := load[i] + order[k].n];
    }
    assert order[..|order|] == order && asg[..|order|] == asg;
  }

  /** The split depends on the counts alone, not on the order files were seen in:
      every worker of every shard computes the same one. */
  lemma SameSplitForEveryInsertionOrder(a: seq<File>, b: seq<File>, shards: nat)
    requires shards > 0 && multiset(a) == multiset(b)
    ensures ShardMap(a, shards) == ShardMap(b, shards)
  {
    BeforeIsAnOrder();
    BeforeIsKeyed(a);
    SortIgnoresOrder(a, b, Before);
  }

  // ---- the collection hook ----

  /** `nodeid.split("::")[0]`. */
  function FileOf(nodeid: string): string {
    if |nodeid| >= 2 && nodeid[0] == ':' && nodeid[1] == ':' then ""
    else if nodeid == "" then ""
    else [nodeid[0]] + FileOf(nodeid[1..])
  }

  /** A "::" starts at place `i`. */
  predicate SplitsAt(nodeid: string, i: nat) {
    i + 1 < |nodeid| && nodeid[i] == ':' && nodeid[i + 1] == ':'
  }

  /** What stands before the first "::", or the whole where there is none. */
  lemma {:induction false} FileOfIsFirstPart(nodeid: string)
    ensures FileOf(nodeid) <= nodeid
    ensures forall i: nat :: i < |FileOf(nodeid)| ==> !SplitsAt(nodeid, i)
    ensures FileOf(nodeid) == nodeid || SplitsAt(nodeid, |FileOf(nodeid)|)
  {
    if nodeid != "" && !SplitsAt(nodeid, 0) {
      var rest := nodeid[1..];
      FileOfIsFirstPart(rest);
      assert nodeid == [nodeid[0]] + rest;
      forall i: nat | i < |FileOf(nodeid)| ensures !SplitsAt(nodeid, i) {
        if i > 0 {
          assert !SplitsAt(rest, i - 1);
        }
      }
    }
  }

  /** A path: no "::" in it, and no colon at its end to run into one. */
  predicate IsPath(p: string) {
    (forall i: nat :: i < |p| ==> !SplitsAt(p, i)) && (p != "" ==> p[|p| - 1] != ':')
  }

  /** A test of the file `p`: the file itself, or something in it. */
  predicate InFile(nodeid: string, p: string) {
    nodeid == p || p + "::" <= nodeid
  }

  /** A node id's file is the path `p` if and only if the id is `p`, or `p`, "::" and more. */
  lemma FileOfIsThePath(nodeid: string, p: string)
    requires IsPath(p)
    ensures FileOf(nodeid) == p <==> InFile(nodeid, p)
  {
    var f := FileOf(nodeid);
    FileOfIsFirstPart(nodeid);
    if f == p && f != nodeid {
      assert nodeid[|p|..|p| + 2] == "::";
      assert nodeid[..|p| + 2] == p + "::";
    }
    if InFile(nodeid, p) && f != p {
      if |f| < |p| {
        assert SplitsAt(nodeid, |f|);
        assert p <= nodeid && p[|f|] == ':';
        assert |f| + 1 < |p| ==> SplitsAt(p, |f|);
        assert false;
      } else {
        assert nodeid != p ==> (p + "::")[|p|] == ':' && (p + "::")[|p| + 1] == ':';
        assert nodeid != p && |f| > |p| ==> SplitsAt(nodeid, |p|);
      }
    }
  }

  function Paths(files: seq<File>): set<string> {
    set k | 0 <= k < |files| :: files[k].path
  }

  /** `files[path] = files.get(path, 0) + 1`. */
  function Bump(files: seq<File>, path: string): seq<File> {
    if files == [] then [File(path, 1)]
    else if files[0].path == path then [File(path, files[0].n + 1)] + files[1..]
    else [files[0]] + Bump(files[1..], path)
  }

  lemma PathsOfCons(f: File, rest: seq<File>)
    ensures Paths([f] + rest) == {f.path} + Paths(rest)
    ensures DistinctPaths([f] + rest) <==> f.path !in Paths(rest) && DistinctPaths(rest)
  {
    var s := [f] + rest;
    assert s[0] == f && s[1..] == rest;
    forall p ensures p in Paths(s) <==> p in {f.path} + Paths(rest) {
      PathOfCons(f, rest, p);
    }
    DistinctCons(f, rest);
  }

  lemma PathOfCons(f: File, rest: seq<File>, p: string)
    ensures p in Paths([f] + rest) <==> p == f.path || p in Paths(rest)
  {
    var s := [f] + rest;
    if p in Paths(s) {
      var k :| 0 <= k < |s| && s[k].path == p;
      assert k > 0 ==> rest[k - 1].path == p;
    }
    if p in Paths(rest) {
      var k :| 0 <= k < |rest| && rest[k].path == p;
      assert s[k + 1].path == p;
    }
    assert s[0].path in Paths(s);
  }

  lemma DistinctCons(f: File, rest: seq<File>)
    ensures DistinctPaths([f] + rest) <==> f.path !in Paths(rest) && DistinctPaths(rest)
  {
    var s := [f] + rest;
    if DistinctPaths(s) {
      forall k | 0 <= k < |rest| ensures rest[k].path != f.path { assert s[k + 1].path != s[0].path; }
      forall i, j | 0 <= i < j < |rest| ensures rest[i].path != rest[j].path { assert s[i + 1].path != s[j + 1].path; }
    }
    if f.path !in Paths(rest) && DistinctPaths(rest) {
      forall i, j | 0 <= i < j < |s| ensures s[i].path != s[j].path {
        assert rest[j - 1].path in Paths(rest);
      }
    }
  }

  lemma {:induction false} BumpPaths(files: seq<File>, path: string)
    requires DistinctPaths(files)
    ensures DistinctPaths(Bump(files, path))
    ensures Paths(Bump(files, path)) == Paths(files) + {path}
  {
    if files == [] {
      PathsOfCons(File(path, 1), []);
    } else {
      assert files == [files[0]] + files[1..];
      PathsOfCons(files[0], files[1..]);
      if files[0].path == path {
        PathsOfCons(File(path, files[0].n + 1), files[1..]);
      } else {
        BumpPaths(files[1..], path);
        PathsOfCons(files[0], Bump(files[1..], path));
      }
    }
  }

  /** How many tests each file holds, files in the order first seen. */
  function Tally(items: seq<string>): (r: seq<File>) {
    if items == [] then []
    else Bump(Tally(items[..|items| - 1]), FileOf(items[|items| - 1]))
  }

  lemma {:induction false} TallyPaths(items: seq<string>)
    ensures DistinctPaths(Tally(items))
    ensures forall k :: 0 <= k < |items| ==> FileOf(items[k]) in Paths(Tally(items))
    ensures items == [] <==> Tally(items) == []
  {
    if items != [] {
      var k := |items| - 1;
      TallyPaths(items[..k]);
      BumpPaths(Tally(items[..k]), FileOf(items[k]));
      forall j | 0 <= j < k ensures FileOf(items[j]) in Paths(Tally(items)) {
        assert items[..k][j] == items[j];
      }
    }
  }

  function Numbered(files: seq<File>, path: string): nat {
    if files == [] then 0 else if files[0].path == path then files[0].n else Numbered(files[1..], path)
  }

  lemma {:induction false} NumberedBump(files: seq<File>, path: string, p: string)
    ensures Numbered(Bump(files, path), p) == Numbered(files, p) + (if p == path then 1 else 0)
  {
    if files != [] && files[0].path != path {
      NumberedBump(files[1..], path, p);
    }
  }

  lemma {:induction false} NumberedAt(files: seq<File>, f: File)
    requires DistinctPaths(files) && f in files
    ensures Numbered(files, f.path) == f.n
  {
    if files[0] != f {
      var k :| 0 < k < |files| && files[k] == f;
      assert files[1..][k - 1] == f && files[0].path != f.path;
      NumberedAt(files[1..], f);
    }
  }

  /** Where in the collection the items with this file part stand. */
  function Places(items: seq<string>, p: string): set<nat> {
    set k: nat | k < |items| && FileOf(items[k]) == p
  }

  /** Where the tests of the file `p` stand. */
  function TestsOf(items: seq<string>, p: string): set<nat> {
    set k: nat | k < |items| && InFile(items[k], p)
  }

  lemma PlacesStep(items: seq<string>, before: seq<string>, last: nat, p: string)
    requires |items| == last + 1 && before == items[..last]
    ensures Places(items, p) == Places(before, p) + (if FileOf(items[last]) == p then {last} else {})
    ensures |Places(items, p)| == |Places(before, p)| + (if FileOf(items[last]) == p then 1 else 0)
  {
    assert last !in Places(before, p);
    assert Places(items, p) == Places(before, p) + (if FileOf(items[last]) == p then {last} else {});
  }

  lemma {:induction false} TallyNumbers(items: seq<string>, p: string)
    ensures Numbered(Tally(items), p) == |Places(items, p)|
  {
    if items == [] {
      assert Places(items, p) == {};
    } else {
      var last := |items| - 1;
      TallyNumbers(items[..last], p);
      NumberedBump(Tally(items[..last]), FileOf(items[last]), p);
      PlacesStep(items, items[..last], last, p);
    }
  }

  lemma PlacesAreTests(items: seq<string>, p: string)
    requires IsPath(p)
    ensures Places(items, p) == TestsOf(items, p)
  {
    forall k: nat | k < |items| ensures k in Places(items, p) <==> k in TestsOf(items, p) {
      FileOfIsThePath(items[k], p);
    }
  }

  /** Each file's count is the number of collected tests in it. */
  lemma TallyCounts(items: seq<string>, f: File)
    requires f in Tally(items) && IsPath(f.path)
    ensures f.n == |TestsOf(items, f.path)|
  {
    TallyPaths(items);
    NumberedAt(Tally(items), f);
    TallyNumbers(items, f.path);
    PlacesAreTests(items, f.path);
  }

  /** The items whose file is on shard `i` of the split `g`, in order. */
  function Kept(items: seq<string>, g: map<string, nat>, i: int): seq<string> {
    if items == [] then []
    else
      var k := |items| - 1;
      Kept(items[..k], g, i)
      + (if FileOf(items[k]) in g && g[FileOf(items[k])] == i then [items[k]] else [])
  }

  /** What shard `index` of `total` keeps. */
  function Sharded(items: seq<string>, index: int, total: nat): seq<string>
    requires total > 0
  {
    Kept(items, ShardMap(Tally(items), total), index - 1)
  }

  method CountFiles(items: seq<string>) returns (files: Files)
    ensures files == Tally(items)
  {
    var f: seq<File> := [];
    for k := 0 to |items|
      invariant f == Tally(items[..k])
    {
      assert items[..k + 1][..k] == items[..k];
      f := Bump(f, FileOf(items[k]));
    }
    assert items[..|items|] == items;
    TallyPaths(items);
    return f;
  }

  method KeepShard(items: seq<string>, shard: map<string, nat>, i: int) returns (keep: seq<string>)
    ensures keep == Kept(items, shard, i)
  {
    keep := [];
    for k := 0 to |items|
      invariant keep == Kept(items[..k], shard, i)
    {
      assert items[..k + 1][..k] == items[..k];
      var path := FileOf(items[k]);
      if path in shard && shard[path] == i {
        keep := keep + [items[k]];
      }
    }
    assert items[..|items|] == items;
  }

  /** The collection pytest hands to `pytest_collection_modifyitems`. */
  class Collection {
    var items: seq<string>

    constructor (items: seq<string>)
      ensures this.items == items
    {
      this.items := items;
    }

    /** Keep shard `index` of `total`; with no spec, keep everything. False is the
        error of splitting tests over no shards. */
    method ModifyItems(spec: Option<(int, int)>) returns (ok: bool)
      modifies this
      ensures spec.None? ==> ok && items == old(items)
      ensures spec.Some? ==> (ok <==> spec.value.1 > 0 || old(items) == [])
      ensures !ok ==> items == old(items)
      ensures spec.Some? && spec.value.1 > 0 ==>
                items == Sharded(old(items), spec.value.0, spec.value.1)
    {
      if spec.None? {
        return true;
      }
      var (index, total) := spec.value;
      var files := CountFiles(items);
      TallyPaths(items);
      var shard := ShardOf(files, total);
      if shard.None? {
        return false;
      }
      items := KeepShard(items, shard.value, index - 1);
      return true;
    }
  }
}
