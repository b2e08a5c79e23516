/** Orders and sorting: the two built-ins (`sorted`, string comparison) that the
    modelled Python code leans on. */
module Ordering {

  /** Lexicographic comparison of strings by code point. */
  predicate StrLeq(a: string, b: string) {
    if a == [] then true
    else if b == [] then false
    else if a[0] == b[0] then StrLeq(a[1..], b[1..])
    else a[0] < b[0]
  }

  /** `k` is where `a` and `b` first differ, and `a` has the smaller character there. */
  predicate SmallerAt(a: string, b: string, k: nat) {
    k < |a| && k < |b| && a[..k] == b[..k] && a[k] < b[k]
  }

  /** Dictionary order: a prefix comes first, and else the first difference decides. */
  ghost predicate InDictionaryOrder(a: string, b: string) {
    a <= b || exists k :: SmallerAt(a, b, k)
  }

  lemma SmallerLater(a: string, b: string, k: nat)
    requires a != [] && b != [] && a[0] == b[0]
    ensures SmallerAt(a, b, k + 1) <==> SmallerAt(a[1..], b[1..], k)
  {
    if k < |a| - 1 && k < |b| - 1 {
      assert a[..k + 1] == [a[0]] + a[1..][..k] && b[..k + 1] == [b[0]] + b[1..][..k];
      assert a[..k + 1][1..] == a[1..][..k] && b[..k + 1][1..] == b[1..][..k];
    }
  }

  lemma SameFirst(a: string, b: string)
    requires a != [] && b != [] && a[0] == b[0]
    ensures InDictionaryOrder(a, b) <==> InDictionaryOrder(a[1..], b[1..])
  {
    assert a == [a[0]] + a[1..] && b == [b[0]] + b[1..];
    assert a <= b <==> a[1..] <= b[1..];
    if k: nat :| SmallerAt(a, b, k) {
      assert k > 0;
      SmallerLater(a, b, k - 1);
    }
    if k: nat :| SmallerAt(a[1..], b[1..], k) {
      SmallerLater(a, b, k);
    }
  }

  lemma OtherFirst(a: string, b: string)
    requires a != [] && b != [] && a[0] != b[0]
    ensures InDictionaryOrder(a, b) <==> a[0] < b[0]
  {
    if a[0] < b[0] {
      assert SmallerAt(a, b, 0);
    }
    if k: nat :| SmallerAt(a, b, k) {
      assert k > 0 ==> a[..k][0] == b[..k][0];
    }
  }

  lemma {:induction false} StrLeqIsDictionaryOrder(a: string, b: string)
    ensures StrLeq(a, b) <==> InDictionaryOrder(a, b)
  {
    if a != [] && b != [] {
      if a[0] == b[0] {
        SameFirst(a, b);
        StrLeqIsDictionaryOrder(a[1..], b[1..]);
      } else {
        OtherFirst(a, b);
      }
    }
  }

  lemma {:induction false} StrLeqTotal(a: string, b: string)
    ensures StrLeq(a, b) || StrLeq(b, a)
    ensures StrLeq(a, b) && StrLeq(b, a) ==> a == b
  {
    if a != [] && b != [] && a[0] == b[0] {
      StrLeqTotal(a[1..], b[1..]);
      assert a == [a[0]] + a[1..] && b == [b[0]] + b[1..];
    }
  }

  lemma {:induction false} StrLeqTransitive(a: string, b: string, c: string)
    requires StrLeq(a, b) && StrLeq(b, c)
    ensures StrLeq(a, c)
  {
    if a != [] && b != [] && c != [] && a[0] == b[0] && b[0] == c[0] {
      StrLeqTransitive(a[1..], b[1..], c[1..]);
    }
  }

  /** A total preorder: what a sort key induces. */
  ghost predicate Preorder<T(!new)>(leq: (T, T) -> bool) {
    && (forall a, b :: leq(a, b) || leq(b, a))
    && (forall a, b, c :: leq(a, b) && leq(b, c) ==> leq(a, c))
  }

  ghost predicate SortedBy<T>(s: seq<T>, leq: (T, T) -> bool) {
    forall i, j :: 0 <= i < j < |s| ==> leq(s[i], s[j])
  }

  /** No two different elements of `s` share a sort key. */
  ghost predicate Keyed<T>(s: seq<T>, leq: (T, T) -> bool) {
    forall x, y :: x in s && y in s && leq(x, y) && leq(y, x) ==> x == y
  }

  function Insert<T>(x: T, s: seq<T>, leq: (T, T) -> bool): (r: seq<T>)
    ensures multiset(r) == multiset([x]) + multiset(s)
  {
    if s == [] || leq(x, s[0]) then [x] + s
    else
      assert s == [s[0]] + s[1..];
      [s[0]] + Insert(x, s[1..], leq)
  }

  /** `sorted(s, key=…)` for the order `leq` that the key induces. */
  function Sort<T>(s: seq<T>, leq: (T, T) -> bool): (r: seq<T>)
    ensures multiset(r) == multiset(s)
    ensures |r| == |s|
  {
    if s == [] then []
    else
      assert s == [s[0]] + s[1..];
      var r := Insert(s[0], Sort(s[1..], leq), leq);
      assert |multiset(r)| == |multiset(s)|;
      r
  }

  lemma SameElements<T>(s: seq<T>, r: seq<T>)
    requires multiset(r) == multiset(s)
    ensures forall x :: x in r <==> x in s
    ensures |r| == |s|
  {
    forall x ensures x in r <==> x in s {
      assert x in r <==> x in multiset(r);
    }
    assert |multiset(r)| == |r| && |multiset(s)| == |s|;
  }

  lemma {:induction false} InsertSorts<T(!new)>(x: T, s: seq<T>, leq: (T, T) -> bool)
    requires Preorder(leq) && SortedBy(s, leq)
    ensures SortedBy(Insert(x, s, leq), leq)
  {
    if s == [] {
    } else if leq(x, s[0]) {
      var r := [x] + s;
      forall i, j | 0 <= i < j < |r| ensures leq(r[i], r[j]) {
        assert leq(s[0], s[j - 1]) by { if j > 1 { assert leq(s[0], s[j - 1]); } else { assert leq(s[0], s[0]); } }
      }
    } else {
      InsertSorts(x, s[1..], leq);
      var t := Insert(x, s[1..], leq);
      var r := [s[0]] + t;
      forall i, j | 0 <= i < j < |r| ensures leq(r[i], r[j]) {
        if i == 0 {
          assert t[j - 1] in multiset(t);
          assert t[j - 1] == x || t[j - 1] in s[1..];
        }
      }
    }
  }

  lemma {:induction false} SortSorts<T(!new)>(s: seq<T>, leq: (T, T) -> bool)
    requires Preorder(leq)
    ensures SortedBy(Sort(s, leq), leq)
  {
    if s != [] {
      SortSorts(s[1..], leq);
      InsertSorts(s[0], Sort(s[1..], leq), leq);
    }
  }

  lemma SameHead<T(!new)>(a: seq<T>, b: seq<T>, leq: (T, T) -> bool)
    requires multiset(a) == multiset(b) && a != [] && b != []
    requires SortedBy(a, leq) && SortedBy(b, leq) && Keyed(a, leq)
    requires forall x :: leq(x, x)
    ensures a[0] == b[0]
  {
    SameElements(a, b);
    assert a[0] in b && b[0] in a;
    var k :| 0 <= k < |b| && b[k] == a[0];
    var l :| 0 <= l < |a| && a[l] == b[0];
    assert leq(b[0], b[k]) && leq(a[0], a[l]);
  }

  lemma DropHead<T>(a: seq<T>, b: seq<T>)
    requires a != [] && b != [] && a[0] == b[0] && multiset(a) == multiset(b)
    ensures multiset(a[1..]) == multiset(b[1..])
  {
    assert a == [a[0]] + a[1..] && b == [b[0]] + b[1..];
    assert multiset(a[1..]) == multiset(a) - multiset([a[0]]);
    assert multiset(b[1..]) == multiset(b) - multiset([b[0]]);
  }

  lemma {:induction false} SortedIsUnique<T(!new)>(a: seq<T>, b: seq<T>, leq: (T, T) -> bool)
    requires multiset(a) == multiset(b)
    requires SortedBy(a, leq) && SortedBy(b, leq) && Keyed(a, leq)
    requires forall x :: leq(x, x)
    ensures a == b
  {
    assert |a| == |multiset(a)| && |b| == |multiset(b)|;
    if a != [] {
      SameHead(a, b, leq);
      DropHead(a, b);
      SortedIsUnique(a[1..], b[1..], leq);
      assert a == [a[0]] + a[1..] && b == [b[0]] + b[1..];
    }
  }

  /** `sorted` does not depend on the order its input arrives in, as long as no
      two different elements share a key. */
  lemma SortIgnoresOrder<T(!new)>(s: seq<T>, t: seq<T>, leq: (T, T) -> bool)
    requires Preorder(leq) && Keyed(s, leq)
    requires multiset(s) == multiset(t)
    ensures Sort(s, leq) == Sort(t, leq)
  {
    SortSorts(s, leq);
    SortSorts(t, leq);
    SameElements(s, Sort(s, leq));
    SortedIsUnique(Sort(s, leq), Sort(t, leq), leq);
  }

  /** What is in order already stays as it is, ties included. */
  lemma {:induction false} SortOfSorted<T>(s: seq<T>, leq: (T, T) -> bool)
    requires SortedBy(s, leq)
    ensures Sort(s, leq) == s
  {
    if s != [] {
      SortOfSorted(s[1..], leq);
      assert s == [s[0]] + s[1..];
    }
  }

  lemma StrLeqPreorder()
    ensures Preorder(StrLeq)
  {
    forall a, b ensures StrLeq(a, b) || StrLeq(b, a) {
      StrLeqTotal(a, b);
    }
    forall a, b, c | StrLeq(a, b) && StrLeq(b, c) ensures StrLeq(a, c) {
      StrLeqTransitive(a, b, c);
    }
  }

  /** A sorted list of strings is what sorting any of its permutations gives. */
  lemma SortedStrings(a: seq<string>, b: seq<string>)
    requires SortedBy(a, StrLeq) && multiset(a) == multiset(b)
    ensures Sort(b, StrLeq) == a
  {
    StrLeqPreorder();
    SortSorts(b, StrLeq);
    forall x, y | x in a && y in a && StrLeq(x, y) && StrLeq(y, x) ensures x == y {
      StrLeqTotal(x, y);
    }
    SortedIsUnique(a, Sort(b, StrLeq), StrLeq);
  }
}
