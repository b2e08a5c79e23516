/** The greedy split of weighted files over shards, each file going to the shard with the
    least load so far, and how far from the best possible split it can be. */
module ShardBalance {

  /** The total of the first |ws| weights, newest last. */
  function Sum(ws: seq<nat>): nat {
    if ws == [] then 0 else Sum(ws[..|ws| - 1]) + ws[|ws| - 1]
  }

  /** The load of shard `i` when file `k` of weight `ws[k]` is on shard `asg[k]`. */
  function LoadOf(ws: seq<nat>, asg: seq<nat>, i: nat): nat
    requires |ws| == |asg|
  {
    if ws == [] then 0
    else
      var k := |ws| - 1;
      LoadOf(ws[..k], asg[..k], i) + (if asg[k] == i then ws[k] else 0)
  }

  function Loads(ws: seq<nat>, asg: seq<nat>, m: nat): (r: seq<nat>)
    requires |ws| == |asg|
    ensures |r| == m
  {
    seq(m, i requires 0 <= i < m => LoadOf(ws, asg, i))
  }

  /** `load.index(min(load))`: the first shard of least load. */
  function Lightest(load: seq<nat>): (i: nat)
    requires load != []
    ensures i < |load|
    ensures forall k :: 0 <= k < |load| ==> load[i] <= load[k]
    ensures forall k :: 0 <= k < i ==> load[i] < load[k]
  {
    var k := |load| - 1;
    if k == 0 then 0
    else
      var j := Lightest(load[..k]);
      if load[k] < load[j] then k else j
  }

  /** A shard for every file: each onto the lightest shard so far. */
  function Greedy(ws: seq<nat>, m: nat): (asg: seq<nat>)
    requires m > 0
    ensures |asg| == |ws|
    ensures forall k :: 0 <= k < |asg| ==> asg[k] < m
  {
    if ws == [] then []
    else
      var asg := Greedy(ws[..|ws| - 1], m);
      asg + [Lightest(Loads(ws[..|ws| - 1], asg, m))]
  }

  /** A split of `ws` over `m` shards in which no shard carries more than `t`. */
  ghost predicate Fits(ws: seq<nat>, asg: seq<nat>, m: nat, t: nat) {
    && |asg| == |ws|
    && (forall k :: 0 <= k < |asg| ==> asg[k] < m)
    && (forall i :: 0 <= i < m ==> LoadOf(ws, asg, i) <= t)
  }

  predicate LargestFirst(ws: seq<nat>) {
    forall i, j :: 0 <= i < j < |ws| ==> ws[i] >= ws[j]
  }

  // ---- conservation: the shards together carry everything ----

  /** The first `m` shards together. */
  function TotalLoad(ws: seq<nat>, asg: seq<nat>, m: nat): nat
    requires |ws| == |asg|
  {
    if m == 0 then 0 else TotalLoad(ws, asg, m - 1) + LoadOf(ws, asg, m - 1)
  }

  lemma {:induction false} TotalLoadStep(ws: seq<nat>, asg: seq<nat>, m: nat)
    requires |ws| == |asg| > 0
    ensures var k := |ws| - 1;
            TotalLoad(ws, asg, m) == TotalLoad(ws[..k], asg[..k], m) + (if asg[k] < m then ws[k] else 0)
  {
    if m > 0 {
      TotalLoadStep(ws, asg, m - 1);
    }
  }

  lemma {:induction false} EmptyLoad(m: nat)
    ensures TotalLoad([], [], m) == 0
  {
    if m > 0 {
      EmptyLoad(m - 1);
    }
  }

  lemma {:induction false} LoadsSumToTotal(ws: seq<nat>, asg: seq<nat>, m: nat)
    requires |ws| == |asg|
    requires forall k :: 0 <= k < |asg| ==> asg[k] < m
    ensures TotalLoad(ws, asg, m) == Sum(ws)
  {
    if ws == [] {
      EmptyLoad(m);
    } else {
      var k := |ws| - 1;
      LoadsSumToTotal(ws[..k], asg[..k], m);
      TotalLoadStep(ws, asg, m);
    }
  }

  lemma {:induction false} TotalAtMost(ws: seq<nat>, asg: seq<nat>, m: nat, t: nat)
    requires |ws| == |asg|
    requires forall i :: 0 <= i < m ==> LoadOf(ws, asg, i) <= t
    ensures TotalLoad(ws, asg, m) <= m * t
  {
    if m > 0 {
      TotalAtMost(ws, asg, m - 1, t);
      assert m * t == (m - 1) * t + t;
    }
  }

  lemma {:induction false} TotalAtLeast(ws: seq<nat>, asg: seq<nat>, m: nat, t: nat)
    requires |ws| == |asg|
    requires forall i :: 0 <= i < m ==> LoadOf(ws, asg, i) >= t
    ensures TotalLoad(ws, asg, m) >= m * t
  {
    if m > 0 {
      TotalAtLeast(ws, asg, m - 1, t);
      assert m * t == (m - 1) * t + t;
    }
  }

  lemma {:induction false} PrefixFits(ws: seq<nat>, asg: seq<nat>, m: nat, t: nat)
    requires |ws| > 0 && Fits(ws, asg, m, t)
    ensures Fits(ws[..|ws| - 1], asg[..|ws| - 1], m, t)
    ensures ws[|ws| - 1] <= t
  {
    var k := |ws| - 1;
    forall i | 0 <= i < m
      ensures LoadOf(ws[..k], asg[..k], i) <= t
    {
      assert LoadOf(ws, asg, i) <= t;
    }
    assert LoadOf(ws, asg, asg[k]) <= t;
  }

  // ---- when every file is more than a third of the bound, greedy is optimal ----

  /** Count a file twice when it cannot share a shard with one of weight `p`. */
  function Units(ws: seq<nat>, p: nat, t: nat): (u: seq<nat>)
    ensures |u| == |ws|
    ensures forall k :: 0 <= k < |u| ==> u[k] == if ws[k] + p > t then 2 else 1
  {
    if ws == [] then []
    else Units(ws[..|ws| - 1], p, t) + [if ws[|ws| - 1] + p > t then 2 else 1]
  }

  lemma {:induction false} UnitsOnAShard(ws: seq<nat>, asg: seq<nat>, i: nat, p: nat, t: nat)
    requires |ws| == |asg| && p <= t && 3 * p > t
    requires forall k :: 0 <= k < |ws| ==> ws[k] >= p
    ensures var u := LoadOf(Units(ws, p, t), asg, i);
            var w := LoadOf(ws, asg, i);
            && (u == 0 ==> w == 0)
            && (u == 1 ==> p <= w <= t - p)
            && (u == 2 ==> w > t - p)
            && (u >= 3 ==> w > t)
  {
    if ws != [] {
      UnitsOnAShard(ws[..|ws| - 1], asg[..|ws| - 1], i, p, t);
      var k := |ws| - 1;
      assert Units(ws, p, t)[..k] == Units(ws[..k], p, t);
    }
  }

  /** A split within the bound puts at most two units on a shard. */
  lemma FewUnits(ws: seq<nat>, other: seq<nat>, m: nat, t: nat, p: nat)
    requires Fits(ws, other, m, t) && p <= t && 3 * p > t
    requires forall k :: 0 <= k < |ws| ==> ws[k] >= p
    ensures Sum(Units(ws, p, t)) <= m * 2
  {
    var u := Units(ws, p, t);
    forall j | 0 <= j < m ensures LoadOf(u, other, j) <= 2 {
      UnitsOnAShard(ws, other, j, p, t);
      assert LoadOf(ws, other, j) <= t;
    }
    TotalAtMost(u, other, m, 2);
    LoadsSumToTotal(u, other, m);
  }

  /** Shards with no room for `p` carry at least two units each. */
  lemma ManyUnits(ws: seq<nat>, asg: seq<nat>, m: nat, t: nat, p: nat)
    requires |ws| == |asg| && forall k :: 0 <= k < |asg| ==> asg[k] < m
    requires p <= t && 3 * p > t && forall k :: 0 <= k < |ws| ==> ws[k] >= p
    requires forall j :: 0 <= j < m ==> LoadOf(ws, asg, j) > t - p
    ensures Sum(Units(ws, p, t)) >= m * 2
  {
    var u := Units(ws, p, t);
    forall j | 0 <= j < m ensures LoadOf(u, asg, j) >= 2 {
      UnitsOnAShard(ws, asg, j, p, t);
      assert LoadOf(ws, asg, j) > t - p;
    }
    TotalAtLeast(u, asg, m, 2);
    LoadsSumToTotal(u, asg, m);
  }

  /** The last file finds room under every bound that some split meets, when it
      is the smallest and more than a third of that bound. */
  lemma LastFileFits(ws: seq<nat>, prev: seq<nat>, asg: seq<nat>, other: seq<nat>, m: nat, t: nat, i: nat)
    requires |ws| > 0 && prev == ws[..|ws| - 1] && |asg| == |prev| && m > 0
    requires forall k :: 0 <= k < |asg| ==> asg[k] < m
    requires LargestFirst(ws) && Fits(ws, other, m, t) && 3 * ws[|ws| - 1] > t
    requires i < m && forall j :: 0 <= j < m ==> LoadOf(prev, asg, i) <= LoadOf(prev, asg, j)
    ensures LoadOf(prev, asg, i) + ws[|ws| - 1] <= t
  {
    var p := ws[|ws| - 1];
    PrefixFits(ws, other, m, t);
    FewUnits(ws, other, m, t, p);
    assert Units(ws, p, t)[..|prev|] == Units(prev, p, t);
    assert Sum(Units(ws, p, t)) > Sum(Units(prev, p, t));
    if LoadOf(prev, asg, i) + p > t {
      ManyUnits(prev, asg, m, t, p);
      assert false;
    }
  }

  // ---- the bounds ----

  lemma LightestIsBelowAverage(ws: seq<nat>, asg: seq<nat>, m: nat, l: nat)
    requires |ws| == |asg| && m > 0
    requires forall k :: 0 <= k < |asg| ==> asg[k] < m
    requires forall j :: 0 <= j < m ==> l <= LoadOf(ws, asg, j)
    ensures m * l <= Sum(ws)
  {
    TotalAtLeast(ws, asg, m, l);
    LoadsSumToTotal(ws, asg, m);
  }

  /** What the last file ends up sharing a shard with, in terms of any bound `t`
      that some split meets: `m·C ≤ m·t + (m−1)·p`. */
  lemma LastFileLoad(ws: seq<nat>, prev: seq<nat>, asg: seq<nat>, other: seq<nat>, m: nat, t: nat, l: nat)
    requires |ws| > 0 && m > 0 && Fits(ws, other, m, t)
    requires prev == ws[..|ws| - 1] && |asg| == |prev|
    requires forall k :: 0 <= k < |asg| ==> asg[k] < m
    requires forall j :: 0 <= j < m ==> l <= LoadOf(prev, asg, j)
    ensures m * (l + ws[|ws| - 1]) <= m * t + (m - 1) * ws[|ws| - 1]
  {
    var k := |ws| - 1;
    LightestIsBelowAverage(prev, asg, m, l);
    TotalAtMost(ws, other, m, t);
    LoadsSumToTotal(ws, other, m);
    assert m * (l + ws[k]) == m * l + m * ws[k];
    assert m * ws[k] == (m - 1) * ws[k] + ws[k];
  }

  lemma LightestLoad(ws: seq<nat>, asg: seq<nat>, m: nat)
    requires |ws| == |asg| && m > 0
    ensures var c := Lightest(Loads(ws, asg, m));
            forall j :: 0 <= j < m ==> LoadOf(ws, asg, c) <= LoadOf(ws, asg, j)
  {
    var load := Loads(ws, asg, m);
    forall j | 0 <= j < m
      ensures LoadOf(ws, asg, Lightest(load)) <= LoadOf(ws, asg, j)
    {
      assert load[Lightest(load)] <= load[j];
    }
  }

  /** One step of the greedy: shard `c` takes the last file, the others keep
      their loads. */
  lemma GreedyStep(ws: seq<nat>, m: nat, i: nat)
    requires |ws| > 0 && m > 0 && i < m
    ensures var k := |ws| - 1;
            var before := Greedy(ws[..k], m);
            var c := Lightest(Loads(ws[..k], before, m));
            LoadOf(ws, Greedy(ws, m), i) ==
            LoadOf(ws[..k], before, i) + (if i == c then ws[k] else 0)
  {
    var k := |ws| - 1;
    assert Greedy(ws, m)[..k] == Greedy(ws[..k], m);
  }

  lemma LoadOfMore(ws: seq<nat>, before: seq<nat>, prev: seq<nat>, c: nat, i: nat)
    requires |ws| > 0 && before == ws[..|ws| - 1] && |prev| == |before|
    ensures LoadOf(ws, prev + [c], i) == LoadOf(before, prev, i) + (if c == i then ws[|ws| - 1] else 0)
  {
    assert (prev + [c])[..|prev|] == prev;
  }

  lemma LoadsMore(ws: seq<nat>, before: seq<nat>, m: nat, prev: seq<nat>, load: seq<nat>, c: nat)
    requires |ws| > 0 && before == ws[..|ws| - 1] && |prev| == |before| && c < m
    requires load == Loads(before, prev, m)
    ensures Loads(ws, prev + [c], m) == load[c := load[c] + ws[|ws| - 1]]
  {
    var next := Loads(ws, prev + [c], m);
    forall i | 0 <= i < m ensures next[i] == load[c := load[c] + ws[|ws| - 1]][i] {
      LoadOfMore(ws, before, prev, c, i);
    }
  }

  lemma NothingPlaced(ws: seq<nat>, asg: seq<nat>, m: nat, load: seq<nat>)
    requires |ws| == |asg| && load == seq(m, _ => 0)
    ensures load == Loads(ws[..0], asg[..0], m)
  {
  }

  lemma {:induction false} GreedyAt(ws: seq<nat>, m: nat, k: nat)
    requires m > 0 && k < |ws|
    ensures Greedy(ws, m)[k] == Lightest(Loads(ws[..k], Greedy(ws, m)[..k], m))
  {
    var last := |ws| - 1;
    var asg, before := Greedy(ws, m), Greedy(ws[..last], m);
    assert asg[..last] == before;
    if k < last {
      GreedyAt(ws[..last], m, k);
      assert ws[..last][..k] == ws[..k] && before[..k] == asg[..k] && before[k] == asg[k];
    }
  }

  /** The next file goes to the lightest shard of those before it. */
  lemma PlacedNext(ws: seq<nat>, asg: seq<nat>, m: nat, k: nat, load: seq<nat>, c: nat)
    requires |ws| == |asg| && k < |ws| && c == asg[k] && c < m
    requires load == Loads(ws[..k], asg[..k], m)
    ensures Loads(ws[..k + 1], asg[..k + 1], m) == load[c := load[c] + ws[k]]
  {
    assert asg[..k + 1] == asg[..k] + [c];
    LoadsMore(ws[..k + 1], ws[..k], m, asg[..k], load, c);
  }

  lemma TimesAtMost(a: nat, x: nat, y: nat)
    requires x <= y
    ensures a * x <= a * y
  {
  }

  lemma TwiceTheBound(m: nat, c: nat, t: nat, p: nat)
    requires m > 0 && p <= t && m * c <= m * t + (m - 1) * p
    ensures m * c <= (2 * m - 1) * t
  {
    TimesAtMost(m - 1, p, t);
    assert m * t + (m - 1) * t == (2 * m - 1) * t;
  }

  lemma ThirdOfTheBound(m: nat, c: nat, t: nat, p: nat)
    requires m > 0 && 3 * p <= t && m * c <= m * t + (m - 1) * p
    ensures 3 * m * c <= (4 * m - 1) * t
  {
    TimesAtMost(m - 1, 3 * p, t);
    assert (m - 1) * (3 * p) == 3 * ((m - 1) * p);
    assert 3 * m * c == 3 * (m * c);
    assert 3 * (m * t) + (m - 1) * t == (4 * m - 1) * t;
  }

  lemma WithinTheBound(m: nat, c: nat, t: nat)
    requires m > 0 && c <= t
    ensures 3 * m * c <= (4 * m - 1) * t
  {
    TimesAtMost(3 * m, c, t);
    TimesAtMost(t, 3 * m, 4 * m - 1);
    assert t * (3 * m) == 3 * m * t && t * (4 * m - 1) == (4 * m - 1) * t;
  }

  lemma LastFileTwice(ws: seq<nat>, prev: seq<nat>, asg: seq<nat>, other: seq<nat>, m: nat, t: nat, i: nat, c: nat)
    requires |ws| > 0 && prev == ws[..|ws| - 1] && |asg| == |prev| && m > 0
    requires forall k :: 0 <= k < |asg| ==> asg[k] < m
    requires Fits(ws, other, m, t)
    requires i < m && forall j :: 0 <= j < m ==> LoadOf(prev, asg, i) <= LoadOf(prev, asg, j)
    requires c == LoadOf(prev, asg, i) + ws[|ws| - 1]
    ensures m * c <= (2 * m - 1) * t
  {
    PrefixFits(ws, other, m, t);
    LastFileLoad(ws, prev, asg, other, m, t, LoadOf(prev, asg, i));
    TwiceTheBound(m, c, t, ws[|ws| - 1]);
  }

  /** Graham's bound for list scheduling: in whatever order files come, no shard
      carries more than (2 − 1/m) times what some shard of any other split does. */
  lemma {:induction false} GrahamBound(ws: seq<nat>, other: seq<nat>, m: nat, t: nat, i: nat, c: nat)
    requires m > 0 && i < m && Fits(ws, other, m, t)
    requires c == LoadOf(ws, Greedy(ws, m), i)
    ensures m * c <= (2 * m - 1) * t
  {
    if ws == [] {
      assert c == 0;
      TimesAtMost(2 * m - 1, 0, t);
    } else {
      var k := |ws| - 1;
      var prev, asg := ws[..k], Greedy(ws[..k], m);
      PrefixFits(ws, other, m, t);
      GreedyStep(ws, m, i);
      if i == Lightest(Loads(prev, asg, m)) {
        LightestLoad(prev, asg, m);
        LastFileTwice(ws, prev, asg, other, m, t, i, c);
      } else {
        GrahamBound(prev, other[..k], m, t, i, c);
      }
    }
  }

  /** The last file lands within the bound of largest-first list scheduling. */
  lemma LastFileBound(ws: seq<nat>, prev: seq<nat>, asg: seq<nat>, other: seq<nat>, m: nat, t: nat, i: nat, c: nat)
    requires |ws| > 0 && prev == ws[..|ws| - 1] && |asg| == |prev| && m > 0
    requires forall k :: 0 <= k < |asg| ==> asg[k] < m
    requires LargestFirst(ws) && Fits(ws, other, m, t)
    requires i < m && forall j :: 0 <= j < m ==> LoadOf(prev, asg, i) <= LoadOf(prev, asg, j)
    requires c == LoadOf(prev, asg, i) + ws[|ws| - 1]
    ensures 3 * m * c <= (4 * m - 1) * t
  {
    var p := ws[|ws| - 1];
    if 3 * p > t {
      LastFileFits(ws, prev, asg, other, m, t, i);
      WithinTheBound(m, c, t);
    } else {
      LastFileLoad(ws, prev, asg, other, m, t, LoadOf(prev, asg, i));
      ThirdOfTheBound(m, c, t, p);
    }
  }

  /** The bound for largest-first list scheduling: within (4/3 − 1/(3m)) of every
      other split of the same files over the same number of shards. */
  lemma {:induction false} LargestFirstBound(ws: seq<nat>, other: seq<nat>, m: nat, t: nat, i: nat, c: nat)
    requires m > 0 && i < m && LargestFirst(ws) && Fits(ws, other, m, t)
    requires c == LoadOf(ws, Greedy(ws, m), i)
    ensures 3 * m * c <= (4 * m - 1) * t
  {
    if ws == [] {
      assert c == 0;
      WithinTheBound(m, c, t);
    } else {
      var k := |ws| - 1;
      var prev, asg := ws[..k], Greedy(ws[..k], m);
      PrefixFits(ws, other, m, t);
      GreedyStep(ws, m, i);
      if i == Lightest(Loads(prev, asg, m)) {
        LightestLoad(prev, asg, m);
        LastFileBound(ws, prev, asg, other, m, t, i, c);
      } else {
        LargestFirstBound(prev, other[..k], m, t, i, c);
      }
    }
  }

  /** No two shards ever differ by more than the largest file. */
  lemma {:induction false} SpreadBound(ws: seq<nat>, m: nat, big: nat, i: nat, j: nat)
    requires m > 0 && i < m && j < m
    requires forall k :: 0 <= k < |ws| ==> ws[k] <= big
    ensures LoadOf(ws, Greedy(ws, m), i) <= LoadOf(ws, Greedy(ws, m), j) + big
  {
    if ws != [] {
      var k := |ws| - 1;
      SpreadBound(ws[..k], m, big, i, j);
      GreedyStep(ws, m, i);
      GreedyStep(ws, m, j);
      LightestLoad(ws[..k], Greedy(ws[..k], m), m);
    }
  }
}
