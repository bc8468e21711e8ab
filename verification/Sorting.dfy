/**
 Stable sorting by a key, where a key is a list of integers compared
 lexicographically (the order Rust derives for tuples of integers and byte
 arrays of fixed length).
 */
module Sorting {

  predicate LexLess(a: seq<int>, b: seq<int>) {
    if b == [] then false
    else if a == [] then true
    else a[0] < b[0] || (a[0] == b[0] && LexLess(a[1..], b[1..]))
  }

  lemma {:induction false} LexTrichotomy(a: seq<int>, b: seq<int>)
    ensures LexLess(a, b) || a == b || LexLess(b, a)
    ensures !(LexLess(a, b) && LexLess(b, a))
    ensures !LexLess(a, a)
    decreases |a|
  {
    if a != [] {
      LexTrichotomy(a[1..], a[1..]);
      if b != [] {
        LexTrichotomy(a[1..], b[1..]);
        if a[0] == b[0] && a[1..] == b[1..] {
          assert a == [a[0]] + a[1..] && b == [b[0]] + b[1..];
        }
      }
    }
  }

  lemma {:induction false} LexTransitive(a: seq<int>, b: seq<int>, c: seq<int>)
    requires LexLess(a, b) && LexLess(b, c)
    ensures LexLess(a, c)
    decreases |a|
  {
    if a != [] && a[0] == b[0] && b[0] == c[0] {
      LexTransitive(a[1..], b[1..], c[1..]);
    }
  }

  function Insert<T>(key: T -> seq<int>, x: T, s: seq<T>): seq<T> {
    if s == [] then [x]
    else if LexLess(key(s[0]), key(x)) then [s[0]] + Insert(key, x, s[1..])
    else [x] + s
  }

  // `sort_by_key`
  function Sort<T>(key: T -> seq<int>, s: seq<T>): seq<T> {
    if s == [] then [] else Insert(key, s[0], Sort(key, s[1..]))
  }

  ghost predicate DistinctKeys<T>(key: T -> seq<int>, s: seq<T>) {
    forall i, j :: 0 <= i < j < |s| ==> key(s[i]) != key(s[j])
  }

  ghost predicate StrictlySorted<T>(key: T -> seq<int>, s: seq<T>) {
    forall i, j :: 0 <= i < j < |s| ==> LexLess(key(s[i]), key(s[j]))
  }

  lemma {:induction false} InsertPermutes<T>(key: T -> seq<int>, x: T, s: seq<T>)
    ensures multiset(Insert(key, x, s)) == multiset([x] + s)
  {
    if s != [] && LexLess(key(s[0]), key(x)) {
      InsertPermutes(key, x, s[1..]);
      assert s == [s[0]] + s[1..];
    }
  }

  lemma {:induction false} SortPermutes<T>(key: T -> seq<int>, s: seq<T>)
    ensures multiset(Sort(key, s)) == multiset(s)
    ensures |Sort(key, s)| == |s|
  {
    if s != [] {
      SortPermutes(key, s[1..]);
      InsertPermutes(key, s[0], Sort(key, s[1..]));
      assert s == [s[0]] + s[1..];
    }
    assert |multiset(Sort(key, s))| == |multiset(s)|;
  }

  lemma ConsSorted<T>(key: T -> seq<int>, x: T, s: seq<T>)
    requires StrictlySorted(key, s)
    requires forall j :: 0 <= j < |s| ==> LexLess(key(x), key(s[j]))
    ensures StrictlySorted(key, [x] + s)
  {
  }

  lemma {:induction false} InsertSorted<T>(key: T -> seq<int>, x: T, s: seq<T>)
    requires StrictlySorted(key, s)
    requires forall y :: y in s ==> key(y) != key(x)
    ensures StrictlySorted(key, Insert(key, x, s))
  {
    if s == [] {
    } else if LexLess(key(s[0]), key(x)) {
      var r := Insert(key, x, s[1..]);
      InsertSorted(key, x, s[1..]);
      InsertPermutes(key, x, s[1..]);
      forall j | 0 <= j < |r| ensures LexLess(key(s[0]), key(r[j])) {
        assert r[j] in multiset(r);
        assert r[j] in multiset([x] + s[1..]);
        if r[j] != x { assert r[j] in s[1..]; }
      }
      ConsSorted(key, s[0], r);
    } else {
      forall j | 0 <= j < |s| ensures LexLess(key(x), key(s[j])) {
        LexTrichotomy(key(x), key(s[0]));
        assert s[0] in s;
        if j > 0 { LexTransitive(key(x), key(s[0]), key(s[j])); }
      }
      ConsSorted(key, x, s);
    }
  }

  lemma {:induction false} SortSorted<T>(key: T -> seq<int>, s: seq<T>)
    requires DistinctKeys(key, s)
    ensures StrictlySorted(key, Sort(key, s))
  {
    if s != [] {
      var t := Sort(key, s[1..]);
      SortSorted(key, s[1..]);
      SortPermutes(key, s[1..]);
      forall y | y in t ensures key(y) != key(s[0]) {
        assert y in multiset(t);
        assert y in s[1..];
      }
      InsertSorted(key, s[0], t);
    }
  }

  // Two strictly sorted lists with the same elements are the same list.
  lemma {:induction false} SortedUnique<T>(key: T -> seq<int>, a: seq<T>, b: seq<T>)
    requires StrictlySorted(key, a) && StrictlySorted(key, b)
    requires multiset(a) == multiset(b)
    ensures a == b
    decreases |a|
  {
    assert |multiset(a)| == |a| && |multiset(b)| == |b|;
    if a != [] {
      HeadsAgree(key, a, b);
      assert a == [a[0]] + a[1..] && b == [b[0]] + b[1..];
      assert multiset(a[1..]) == multiset(a) - multiset{a[0]};
      assert multiset(b[1..]) == multiset(b) - multiset{b[0]};
      SortedUnique(key, a[1..], b[1..]);
    }
  }

  lemma HeadsAgree<T>(key: T -> seq<int>, a: seq<T>, b: seq<T>)
    requires StrictlySorted(key, a) && StrictlySorted(key, b)
    requires multiset(a) == multiset(b)
    requires a != [] && b != []
    ensures a[0] == b[0]
  {
    assert a[0] in multiset(b) && b[0] in multiset(a);
    var i :| 0 <= i < |b| && b[i] == a[0];
    var j :| 0 <= j < |a| && a[j] == b[0];
    if i > 0 && j > 0 {
      LexTrichotomy(key(a[0]), key(b[0]));
    }
  }

  // Sorting forgets the order exactly: when the keys tell the elements apart,
  // two lists sort alike if and only if one is a permutation of the other.
  lemma SortIffPermutation<T>(key: T -> seq<int>, a: seq<T>, b: seq<T>)
    requires DistinctKeys(key, a) && DistinctKeys(key, b)
    ensures Sort(key, a) == Sort(key, b) <==> multiset(a) == multiset(b)
  {
    SortPermutes(key, a);
    SortPermutes(key, b);
    if multiset(a) == multiset(b) {
      SortSorted(key, a);
      SortSorted(key, b);
      SortedUnique(key, Sort(key, a), Sort(key, b));
    }
  }
}
