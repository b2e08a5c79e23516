/** What the shards of one collection are together, and how even they are, in
    terms of the tests each of them keeps. */
module ShardSuite {
  import opened Ordering
  import opened ShardBalance
  import opened Shards

  /** `g` sends every collected file to one of `n` shards. */
  ghost predicate Splits(g: map<string, nat>, items: seq<string>, n: nat) {
    forall k :: 0 <= k < |items| ==> FileOf(items[k]) in g && g[FileOf(items[k])] < n
  }

  /** Where in the collection the tests kept on shard `i` stand. */
  function Positions(items: seq<string>, g: map<string, nat>, i: int): seq<nat> {
    if items == [] then []
    else
      var k := |items| - 1;
      Positions(items[..k], g, i)
      + (if FileOf(items[k]) in g && g[FileOf(items[k])] == i then [k] else [])
  }

  ghost predicate Increasing(s: seq<nat>) {
    forall a, b :: 0 <= a < b < |s| ==> s[a] < s[b]
  }

  lemma {:induction false} KeptByPosition(items: seq<string>, g: map<string, nat>, i: int)
    ensures var ps := Positions(items, g, i);
            && |ps| == |Kept(items, g, i)|
            && Increasing(ps)
            && (forall a :: 0 <= a < |ps| ==> ps[a] < |items| && items[ps[a]] == Kept(items, g, i)[a])
            && (forall p: nat :: p < |items| ==>
                  (p in ps <==> FileOf(items[p]) in g && g[FileOf(items[p])] == i))
  {
    if items != [] {
      var k := |items| - 1;
      KeptByPosition(items[..k], g, i);
      var before := Positions(items[..k], g, i);
      forall p: nat | p < |items|
        ensures p in Positions(items, g, i) <==> FileOf(items[p]) in g && g[FileOf(items[p])] == i
      {
        if p < k {
          assert items[..k][p] == items[p];
        } else {
          assert forall a :: 0 <= a < |before| ==> before[a] < k;
        }
      }
    }
  }

  lemma ShardMapSplits(items: seq<string>, n: nat)
    requires n > 0
    ensures Splits(ShardMap(Tally(items), n), items, n)
  {
    var files := Tally(items);
    var order := Sort(files, Before);
    var asg := Greedy(Weights(order), n);
    TallyPaths(items);
    SortKeepsPaths(files);
    forall k | 0 <= k < |items|
      ensures FileOf(items[k]) in ShardMap(files, n) && ShardMap(files, n)[FileOf(items[k])] < n
    {
      var path := FileOf(items[k]);
      assert path in Paths(files);
      var j :| 0 <= j < |order| && order[j].path == path;
      AssignedAt(order, asg, j);
    }
  }

  lemma SortKeepsPaths(files: seq<File>)
    requires DistinctPaths(files)
    ensures var order := Sort(files, Before);
            DistinctPaths(order) && Paths(order) == Paths(files)
  {
    var order := Sort(files, Before);
    SameElements(files, order);
    forall p ensures p in Paths(order) <==> p in Paths(files) {
      if p in Paths(order) {
        var j :| 0 <= j < |order| && order[j].path == p;
        assert order[j] in files;
      }
      if p in Paths(files) {
        var j :| 0 <= j < |files| && files[j].path == p;
        assert files[j] in order;
      }
    }
    SortKeepsDistinct(files);
  }

  lemma {:induction false} InsertKeepsDistinct(f: File, s: seq<File>)
    requires DistinctPaths(s) && f.path !in Paths(s)
    ensures DistinctPaths(Insert(f, s, Before))
    ensures Paths(Insert(f, s, Before)) == {f.path} + Paths(s)
  {
    PathsOfCons(f, s);
    if s != [] && !Before(f, s[0]) {
      assert s == [s[0]] + s[1..];
      PathsOfCons(s[0], s[1..]);
      InsertKeepsDistinct(f, s[1..]);
      PathsOfCons(s[0], Insert(f, s[1..], Before));
    }
  }

  lemma {:induction false} SortKeepsDistinct(files: seq<File>)
    requires DistinctPaths(files)
    ensures DistinctPaths(Sort(files, Before)) && Paths(Sort(files, Before)) == Paths(files)
  {
    if files != [] {
      assert files == [files[0]] + files[1..];
      PathsOfCons(files[0], files[1..]);
      SortKeepsDistinct(files[1..]);
      InsertKeepsDistinct(files[0], Sort(files[1..], Before));
    }
  }

  /** Every collected test is kept by exactly one of the `n` shards. */
  lemma EveryTestOnOneShard(items: seq<string>, n: nat, p: nat) returns (home: nat)
    requires n > 0 && p < |items|
    ensures home < n
    ensures forall i :: p in Positions(items, ShardMap(Tally(items), n), i) <==> i == home
  {
    var g := ShardMap(Tally(items), n);
    ShardMapSplits(items, n);
    home := g[FileOf(items[p])];
    forall i ensures p in Positions(items, g, i) <==> i == home {
      KeptByPosition(items, g, i);
    }
  }

  /** The tests of one file stay together: whatever the collection and the number of
      shards, a shard keeps all of them or none. */
  lemma FileStaysTogether(items: seq<string>, n: nat, p: string, index: int, a: nat, b: nat)
    requires n > 0 && IsPath(p) && a < |items| && b < |items|
    requires InFile(items[a], p) && InFile(items[b], p)
    ensures var kept := Positions(items, ShardMap(Tally(items), n), index - 1);
            a in kept <==> b in kept
    ensures items[a] in Sharded(items, index, n) <==> items[b] in Sharded(items, index, n)
  {
    var g := ShardMap(Tally(items), n);
    FileOfIsThePath(items[a], p);
    FileOfIsThePath(items[b], p);
    KeptByPosition(items, g, index - 1);
    KeptIsByFile(items, g, index - 1, items[a]);
    KeptIsByFile(items, g, index - 1, items[b]);
  }

  lemma {:induction false} KeptIsByFile(items: seq<string>, g: map<string, nat>, i: int, item: string)
    ensures item in Kept(items, g, i) <==> item in items && FileOf(item) in g && g[FileOf(item)] == i
  {
    if items != [] {
      KeptIsByFile(items[..|items| - 1], g, i, item);
      assert items == items[..|items| - 1] + [items[|items| - 1]];
    }
  }

  // ---- test counts are the loads ----

  /** Tests in the files that `g` sends to shard `i`. */
  function SizeOn(files: seq<File>, g: map<string, nat>, i: nat): nat {
    if files == [] then 0
    else (if files[0].path in g && g[files[0].path] == i then files[0].n else 0) + SizeOn(files[1..], g, i)
  }

  lemma {:induction false} SizeOfInsert(f: File, s: seq<File>, g: map<string, nat>, i: nat)
    ensures SizeOn(Insert(f, s, Before), g, i) == SizeOn([f] + s, g, i)
  {
    assert ([f] + s)[1..] == s;
    if s != [] && !Before(f, s[0]) {
      SizeOfInsert(f, s[1..], g, i);
      assert ([f] + s[1..])[1..] == s[1..];
    }
  }

  lemma {:induction false} SizeOfSorted(files: seq<File>, g: map<string, nat>, i: nat)
    ensures SizeOn(Sort(files, Before), g, i) == SizeOn(files, g, i)
  {
    if files != [] {
      SizeOfSorted(files[1..], g, i);
      SizeOfInsert(files[0], Sort(files[1..], Before), g, i);
      assert ([files[0]] + Sort(files[1..], Before))[1..] == Sort(files[1..], Before);
    }
  }

  lemma {:induction false} SizeOfBump(files: seq<File>, path: string, g: map<string, nat>, i: nat)
    ensures SizeOn(Bump(files, path), g, i)
            == SizeOn(files, g, i) + (if path in g && g[path] == i then 1 else 0)
  {
    if files != [] && files[0].path != path {
      SizeOfBump(files[1..], path, g, i);
    }
  }

  lemma {:induction false} KeptIsSize(items: seq<string>, g: map<string, nat>, i: nat)
    ensures |Kept(items, g, i)| == SizeOn(Tally(items), g, i)
  {
    if items != [] {
      var k := |items| - 1;
      KeptIsSize(items[..k], g, i);
      SizeOfBump(Tally(items[..k]), FileOf(items[k]), g, i);
    }
  }

  lemma {:induction false} SizeOfSnoc(s: seq<File>, f: File, g: map<string, nat>, i: nat)
    ensures SizeOn(s + [f], g, i) == SizeOn(s, g, i) + (if f.path in g && g[f.path] == i then f.n else 0)
  {
    if s == [] {
      assert s + [f] == [f];
    } else {
      SizeOfSnoc(s[1..], f, g, i);
      assert (s + [f])[1..] == s[1..] + [f];
    }
  }

  lemma {:induction false} SizeIsLoad(s: seq<File>, asg: seq<nat>, g: map<string, nat>, i: nat)
    requires |asg| == |s|
    requires forall k :: 0 <= k < |s| ==> s[k].path in g && g[s[k].path] == asg[k]
    ensures LoadOf(Weights(s), asg, i) == SizeOn(s, g, i)
  {
    if s != [] {
      var k := |s| - 1;
      SizeIsLoad(s[..k], asg[..k], g, i);
      SizeOfSnoc(s[..k], s[k], g, i);
      assert s == s[..k] + [s[k]];
      assert Weights(s)[..k] == Weights(s[..k]);
    }
  }

  /** The assignment of the sorted files that a split amounts to. */
  function AssignmentOf(s: seq<File>, g: map<string, nat>): (asg: seq<nat>)
    requires forall k :: 0 <= k < |s| ==> s[k].path in g
    ensures |asg| == |s|
  {
    seq(|s|, k requires 0 <= k < |s| => g[s[k].path])
  }

  /** Every whole-file split of a collection is an assignment of its sorted files,
      with the kept tests as loads. */
  lemma KeptIsLoad(items: seq<string>, g: map<string, nat>, n: nat, order: seq<File>)
    requires Splits(g, items, n) && order == Sort(Tally(items), Before)
    ensures forall k :: 0 <= k < |order| ==> order[k].path in g && g[order[k].path] < n
    ensures forall i: nat :: LoadOf(Weights(order), AssignmentOf(order, g), i) == |Kept(items, g, i)|
  {
    TallyPaths(items);
    TallyIsCollected(items);
    SortKeepsPaths(Tally(items));
    forall k | 0 <= k < |order| ensures order[k].path in g && g[order[k].path] < n {
      assert order[k].path in Paths(Tally(items));
      var j :| 0 <= j < |items| && FileOf(items[j]) == order[k].path;
    }
    forall i: nat ensures LoadOf(Weights(order), AssignmentOf(order, g), i) == |Kept(items, g, i)| {
      SizeIsLoad(order, AssignmentOf(order, g), g, i);
      SizeOfSorted(Tally(items), g, i);
      KeptIsSize(items, g, i);
    }
  }

  lemma {:induction false} TallyIsCollected(items: seq<string>)
    ensures forall p :: p in Paths(Tally(items)) ==> exists k :: 0 <= k < |items| && FileOf(items[k]) == p
  {
    if items != [] {
      var k := |items| - 1;
      TallyIsCollected(items[..k]);
      TallyPaths(items[..k]);
      BumpPaths(Tally(items[..k]), FileOf(items[k]));
      forall p | p in Paths(Tally(items)) ensures exists k :: 0 <= k < |items| && FileOf(items[k]) == p {
        if p in Paths(Tally(items[..k])) {
          var j :| 0 <= j < k && FileOf(items[..k][j]) == p;
          assert FileOf(items[j]) == p;
        }
      }
    }
  }

  lemma SortedIsLargestFirst(files: seq<File>)
    ensures LargestFirst(Weights(Sort(files, Before)))
  {
    BeforeIsAnOrder();
    SortSorts(files, Before);
    var order := Sort(files, Before);
    assert forall i, j :: 0 <= i < j < |order| ==> Before(order[i], order[j]);
  }

  /** The loads of `_shard_of` on a collection are the numbers of tests kept. */
  lemma ShardMapLoads(items: seq<string>, n: nat, order: seq<File>, ws: seq<nat>)
    requires n > 0 && order == Sort(Tally(items), Before) && ws == Weights(order)
    ensures forall i: nat :: LoadOf(ws, Greedy(ws, n), i) == |Kept(items, ShardMap(Tally(items), n), i)|
  {
    var asg := Greedy(ws, n);
    var g := ShardMap(Tally(items), n);
    ShardMapSplits(items, n);
    KeptIsLoad(items, g, n, order);
    TallyPaths(items);
    SortKeepsPaths(Tally(items));
    forall k | 0 <= k < |order| ensures AssignmentOf(order, g)[k] == asg[k] {
      AssignedAt(order, asg, k);
    }
    assert AssignmentOf(order, g) == asg;
  }

  /** No shard of N keeps more than (4/3 − 1/(3N)) times the tests that some shard
      keeps under any other way of giving whole files to N shards. */
  lemma SuiteBalance(items: seq<string>, other: map<string, nat>, n: nat, t: nat, i: nat)
    requires n > 0 && i < n && Splits(other, items, n)
    requires forall j: nat :: j < n ==> |Kept(items, other, j)| <= t
    ensures 3 * n * |Kept(items, ShardMap(Tally(items), n), i)| <= (4 * n - 1) * t
  {
    var order := Sort(Tally(items), Before);
    var ws := Weights(order);
    KeptIsLoad(items, other, n, order);
    ShardMapLoads(items, n, order, ws);
    SortedIsLargestFirst(Tally(items));
    LargestFirstBound(ws, AssignmentOf(order, other), n, t, i, |Kept(items, ShardMap(Tally(items), n), i)|);
  }

  /** Two shards differ by no more tests than the largest file holds. */
  lemma SuiteSpread(items: seq<string>, n: nat, big: nat, i: nat, j: nat)
    requires n > 0 && i < n && j < n
    requires forall f :: f in Tally(items) ==> f.n <= big
    ensures var g := ShardMap(Tally(items), n);
            |Kept(items, g, i)| <= |Kept(items, g, j)| + big
  {
    var order := Sort(Tally(items), Before);
    ShardMapLoads(items, n, order, Weights(order));
    SameElements(Tally(items), order);
    forall k | 0 <= k < |order| ensures Weights(order)[k] <= big {
      assert order[k] in Tally(items);
    }
    SpreadBound(Weights(order), n, big, i, j);
  }

  /** Tests kept by the first `n` shards together. */
  function KeptInAll(items: seq<string>, g: map<string, nat>, n: nat): nat {
    if n == 0 then 0 else KeptInAll(items, g, n - 1) + |Kept(items, g, n - 1)|
  }

  function One(b: bool): nat {
    if b then 1 else 0
  }

  lemma KeptStep(items: seq<string>, before: seq<string>, path: string, g: map<string, nat>, i: nat)
    requires items != [] && before == items[..|items| - 1] && path == FileOf(items[|items| - 1])
    ensures |Kept(items, g, i)| == |Kept(before, g, i)| + One(path in g && g[path] == i)
  {
  }

  lemma {:induction false} KeptInAllStep(items: seq<string>, before: seq<string>, path: string, g: map<string, nat>, n: nat)
    requires items != [] && before == items[..|items| - 1] && path == FileOf(items[|items| - 1])
    ensures KeptInAll(items, g, n) == KeptInAll(before, g, n) + One(path in g && g[path] < n)
    decreases n
  {
    if n > 0 {
      KeptInAllStep(items, before, path, g, n - 1);
      KeptStep(items, before, path, g, n - 1);
    }
  }

  lemma {:induction false} NothingKept(g: map<string, nat>, n: nat)
    ensures KeptInAll([], g, n) == 0
  {
    if n > 0 {
      NothingKept(g, n - 1);
    }
  }

  /** Under any whole-file split the shards keep as many tests as were collected. */
  lemma {:induction false} NoTestLost(items: seq<string>, g: map<string, nat>, n: nat)
    requires Splits(g, items, n)
    ensures KeptInAll(items, g, n) == |items|
  {
    if items == [] {
      NothingKept(g, n);
    } else {
      var k := |items| - 1;
      forall j | 0 <= j < k ensures FileOf(items[..k][j]) in g && g[FileOf(items[..k][j])] < n {
        assert items[..k][j] == items[j];
      }
      NoTestLost(items[..k], g, n);
      KeptInAllStep(items, items[..k], FileOf(items[k]), g, n);
    }
  }
}
