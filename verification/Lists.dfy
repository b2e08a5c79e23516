/** Filtering lists, and how it meets concatenation, permutation and order. */
module Lists {
  import opened Ordering

  predicate Distinct<T(==)>(s: seq<T>) {
    forall i, j :: 0 <= i < j < |s| ==> s[i] != s[j]
  }

  /** The elements that satisfy `p`, in order. */
  function Keep<T>(s: seq<T>, p: T -> bool): seq<T> {
    if s == [] then []
    else
      var k := |s| - 1;
      Keep(s[..k], p) + (if p(s[k]) then [s[k]] else [])
  }

  lemma {:induction false} KeepMember<T>(s: seq<T>, p: T -> bool, x: T)
    ensures x in Keep(s, p) <==> x in s && p(x)
  {
    if s != [] {
      var k := |s| - 1;
      KeepMember(s[..k], p, x);
      assert s == s[..k] + [s[k]];
    }
  }

  lemma {:induction false} KeepAppend<T>(a: seq<T>, b: seq<T>, p: T -> bool)
    ensures Keep(a + b, p) == Keep(a, p) + Keep(b, p)
  {
    if b == [] {
      assert a + b == a;
    } else {
      var k := |b| - 1;
      KeepAppend(a, b[..k], p);
      assert (a + b)[..|a| + k] == a + b[..k];
    }
  }

  lemma {:induction false} KeepAll<T>(s: seq<T>, p: T -> bool)
    requires forall x :: x in s ==> p(x)
    ensures Keep(s, p) == s
  {
    if s != [] {
      var k := |s| - 1;
      assert s == s[..k] + [s[k]];
      KeepAll(s[..k], p);
    }
  }

  lemma {:induction false} KeepNone<T>(s: seq<T>, p: T -> bool)
    requires forall x :: x in s ==> !p(x)
    ensures Keep(s, p) == []
  {
    if s != [] {
      var k := |s| - 1;
      assert s == s[..k] + [s[k]];
      KeepNone(s[..k], p);
    }
  }

  lemma {:induction false} KeepTwice<T>(s: seq<T>, p: T -> bool, q: T -> bool, both: T -> bool)
    requires forall x :: x in s ==> (both(x) <==> p(x) && q(x))
    ensures Keep(Keep(s, p), q) == Keep(s, both)
  {
    if s != [] {
      var k := |s| - 1;
      assert forall x :: x in s[..k] ==> x in s;
      KeepTwice(s[..k], p, q, both);
      KeepAppend(Keep(s[..k], p), if p(s[k]) then [s[k]] else [], q);
    }
  }

  lemma {:induction false} KeepCounts<T>(s: seq<T>, p: T -> bool, x: T)
    ensures multiset(Keep(s, p))[x] == if p(x) then multiset(s)[x] else 0
  {
    if s != [] {
      var k := |s| - 1;
      KeepCounts(s[..k], p, x);
      assert s == s[..k] + [s[k]];
    }
  }

  lemma KeepPermuted<T(!new)>(a: seq<T>, b: seq<T>, p: T -> bool)
    requires multiset(a) == multiset(b)
    ensures multiset(Keep(a, p)) == multiset(Keep(b, p))
  {
    forall x ensures multiset(Keep(a, p))[x] == multiset(Keep(b, p))[x] {
      KeepCounts(a, p, x);
      KeepCounts(b, p, x);
    }
  }

  lemma {:induction false} KeepSorted<T>(s: seq<T>, p: T -> bool, leq: (T, T) -> bool)
    requires SortedBy(s, leq)
    ensures SortedBy(Keep(s, p), leq)
  {
    if s != [] {
      var k := |s| - 1;
      KeepSorted(s[..k], p, leq);
      var rest := Keep(s[..k], p);
      forall i | 0 <= i < |rest| ensures leq(rest[i], s[k]) {
        KeepMember(s[..k], p, rest[i]);
        var j :| 0 <= j < k && s[j] == rest[i];
      }
    }
  }

  /** One element alone satisfies `p`. */
  lemma {:induction false} KeepOne<T>(s: seq<T>, p: T -> bool, i: nat)
    requires i < |s| && p(s[i])
    requires forall j :: 0 <= j < |s| && j != i ==> !p(s[j])
    ensures Keep(s, p) == [s[i]]
  {
    var k := |s| - 1;
    if i == k {
      forall x | x in s[..k] ensures !p(x) {
        var j :| 0 <= j < k && s[j] == x;
      }
      KeepNone(s[..k], p);
    } else {
      KeepOne(s[..k], p, i);
    }
  }

  lemma OneSurvivesSort<T(!new)>(s: seq<T>, leq: (T, T) -> bool, p: T -> bool, x: T)
    requires Keep(s, p) == [x]
    ensures Keep(Sort(s, leq), p) == [x]
  {
    KeepPermuted(Sort(s, leq), s, p);
    var kept := Keep(Sort(s, leq), p);
    SameElements([x], kept);
    assert kept[0] in kept;
  }

  lemma {:induction false} DistinctCounts<T>(s: seq<T>, x: T)
    requires Distinct(s)
    ensures multiset(s)[x] == if x in s then 1 else 0
  {
    if s != [] {
      var k := |s| - 1;
      assert s == s[..k] + [s[k]];
      DistinctCounts(s[..k], x);
    }
  }

  /** Lists without repeats and with the same elements are permutations of each other. */
  lemma SameDistinct<T(!new)>(a: seq<T>, b: seq<T>)
    requires Distinct(a) && Distinct(b) && forall x :: x in a <==> x in b
    ensures multiset(a) == multiset(b)
  {
    forall x ensures multiset(a)[x] == multiset(b)[x] {
      DistinctCounts(a, x);
      DistinctCounts(b, x);
    }
  }

  // ---- adding up what the elements of a list stand for ----

  function Total<T, U>(s: seq<T>, f: T -> multiset<U>): multiset<U> {
    if s == [] then multiset{} else f(s[0]) + Total(s[1..], f)
  }

  lemma {:induction false} TotalAppend<T, U>(a: seq<T>, b: seq<T>, f: T -> multiset<U>)
    ensures Total(a + b, f) == Total(a, f) + Total(b, f)
  {
    if a == [] {
      assert a + b == b;
    } else {
      TotalAppend(a[1..], b, f);
      assert (a + b)[1..] == a[1..] + b;
    }
  }

  lemma TotalOne<T, U>(x: T, f: T -> multiset<U>)
    ensures Total([x], f) == f(x)
  {
  }

  lemma TotalLast<T, U>(s: seq<T>, f: T -> multiset<U>)
    requires s != []
    ensures Total(s, f) == Total(s[..|s| - 1], f) + f(s[|s| - 1])
  {
    TotalAppend(s[..|s| - 1], [s[|s| - 1]], f);
    TotalOne(s[|s| - 1], f);
    assert s == s[..|s| - 1] + [s[|s| - 1]];
  }

  lemma TotalUpdate<T, U>(s: seq<T>, i: nat, x: T, f: T -> multiset<U>, more: multiset<U>)
    requires i < |s| && f(x) == f(s[i]) + more
    ensures Total(s[i := x], f) == Total(s, f) + more
  {
    assert s == s[..i] + ([s[i]] + s[i + 1..]);
    assert s[i := x] == s[..i] + ([x] + s[i + 1..]);
    TotalAppend(s[..i], [s[i]] + s[i + 1..], f);
    TotalAppend(s[..i], [x] + s[i + 1..], f);
    TotalAppend([s[i]], s[i + 1..], f);
    TotalAppend([x], s[i + 1..], f);
    TotalOne(s[i], f);
    TotalOne(x, f);
  }

  lemma {:induction false} TotalInsert<T, U>(x: T, s: seq<T>, leq: (T, T) -> bool, f: T -> multiset<U>)
    ensures Total(Insert(x, s, leq), f) == f(x) + Total(s, f)
  {
    if !(s == [] || leq(x, s[0])) {
      TotalInsert(x, s[1..], leq, f);
    }
  }

  /** Sorting does not change the total. */
  lemma {:induction false} TotalSort<T, U>(s: seq<T>, leq: (T, T) -> bool, f: T -> multiset<U>)
    ensures Total(Sort(s, leq), f) == Total(s, f)
  {
    if s != [] {
      TotalSort(s[1..], leq, f);
      TotalInsert(s[0], Sort(s[1..], leq), leq, f);
    }
  }
}
