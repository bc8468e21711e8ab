/**
 The one loop behind the allocation and the continuation-shape validators: scan a
 list with a growing set of seen identities and a running 64-bit total, and stop
 at the first fault.
 */
module Tally {
  import opened Bytes

  datatype Rules<!T, !K, !E> = Rules(
    good: T -> bool,
    fault: (T, nat) -> E,
    id: T -> K,
    duplicate: nat -> E,
    amount: T -> u64,
    overflow: E)

  const U64_LIMIT := 0x1_0000_0000_0000_0000

  function Sum<T>(amount: T -> u64, s: seq<T>): nat {
    if s == [] then 0 else Sum(amount, s[..|s| - 1]) + amount(Last(s))
  }

  predicate DistinctIds<T, K(==)>(id: T -> K, s: seq<T>) {
    forall i, j :: 0 <= i < j < |s| ==> id(s[i]) != id(s[j])
  }

  function Ids<T, K(==)>(id: T -> K, s: seq<T>): set<K> {
    set i | 0 <= i < |s| :: id(s[i])
  }

  // What the scan accepts.
  ghost predicate Acceptable<T, K, E>(r: Rules<T, K, E>, s: seq<T>) {
    && (forall x :: x in s ==> r.good(x))
    && DistinctIds(r.id, s)
    && Sum(r.amount, s) < U64_LIMIT
  }

  // What the scan has decided after the first n items.
  function UpTo<T, K(==), E>(r: Rules<T, K, E>, s: seq<T>, n: nat): Result<u64, E>
    requires n <= |s|
  {
    if n == 0 then Ok(0)
    else
      var total :- UpTo(r, s, n - 1);
      var x := s[n - 1];
      if !r.good(x) then Err(r.fault(x, n - 1))
      else if r.id(x) in Ids(r.id, s[..n - 1]) then Err(r.duplicate(n - 1))
      else if total + r.amount(x) >= U64_LIMIT then Err(r.overflow)
      else Ok(total + r.amount(x))
  }

  function Tallied<T, K(==), E>(r: Rules<T, K, E>, s: seq<T>): Result<u64, E> {
    UpTo(r, s, |s|)
  }

  lemma IdsSnoc<T, K>(id: T -> K, s: seq<T>, i: nat)
    requires i < |s|
    ensures Ids(id, s[..i + 1]) == Ids(id, s[..i]) + {id(s[i])}
  {
    var t := s[..i + 1];
    forall k | k in Ids(id, s[..i]) + {id(s[i])} ensures k in Ids(id, t) {
      if k == id(s[i]) {
        assert id(t[i]) == k;
      } else {
        var j :| 0 <= j < i && id(s[..i][j]) == k;
        assert id(t[j]) == k;
      }
    }
    forall k | k in Ids(id, t) ensures k in Ids(id, s[..i]) + {id(s[i])} {
      var j :| 0 <= j < |t| && id(t[j]) == k;
      if j < i { assert id(s[..i][j]) == k; }
    }
  }

  lemma DistinctSnoc<T, K>(id: T -> K, s: seq<T>, x: T)
    ensures DistinctIds(id, s + [x]) <==> DistinctIds(id, s) && id(x) !in Ids(id, s)
  {
    var t := s + [x];
    if DistinctIds(id, t) {
      forall i, j | 0 <= i < j < |s| ensures id(s[i]) != id(s[j]) {
        assert s[i] == t[i] && s[j] == t[j];
      }
      forall i | 0 <= i < |s| ensures id(s[i]) != id(x) {
        assert s[i] == t[i] && t[|s|] == x;
      }
    }
    if DistinctIds(id, s) && id(x) !in Ids(id, s) {
      forall i, j | 0 <= i < j < |t| ensures id(t[i]) != id(t[j]) {
        assert t[i] == s[i];
        assert id(s[i]) in Ids(id, s);
      }
    }
  }

  lemma AcceptableSnoc<T, K, E>(r: Rules<T, K, E>, s: seq<T>, x: T)
    ensures Acceptable(r, s + [x]) <==>
              Acceptable(r, s) && r.good(x) && r.id(x) !in Ids(r.id, s) && Sum(r.amount, s) + r.amount(x) < U64_LIMIT
  {
    DistinctSnoc(r.id, s, x);
    assert (s + [x])[..|s|] == s && Last(s + [x]) == x;
    assert x in s + [x];
  }

  lemma {:induction false} UpToMeans<T, K, E>(r: Rules<T, K, E>, s: seq<T>, n: nat)
    requires n <= |s|
    ensures UpTo(r, s, n).Ok? <==> Acceptable(r, s[..n])
    ensures UpTo(r, s, n).Ok? ==> UpTo(r, s, n).value == Sum(r.amount, s[..n])
  {
    if n != 0 {
      UpToMeans(r, s, n - 1);
      AcceptableSnoc(r, s[..n - 1], s[n - 1]);
      assert s[..n] == s[..n - 1] + [s[n - 1]];
    }
  }

  // The scan succeeds exactly on acceptable lists, and then returns their sum.
  lemma TalliedMeans<T, K, E>(r: Rules<T, K, E>, s: seq<T>)
    ensures Tallied(r, s).Ok? <==> Acceptable(r, s)
    ensures Tallied(r, s).Ok? ==> Tallied(r, s).value == Sum(r.amount, s)
  {
    UpToMeans(r, s, |s|);
    assert s[..|s|] == s;
  }

  // A fault met early is the fault of the whole scan.
  lemma {:induction false} FaultSticks<T, K, E>(r: Rules<T, K, E>, s: seq<T>, n: nat, m: nat)
    requires n <= m <= |s| && UpTo(r, s, n).Err?
    ensures UpTo(r, s, m) == UpTo(r, s, n)
  {
    if n < m { FaultSticks(r, s, n, m - 1); }
  }

  method Scan<T, K(==), E>(r: Rules<T, K, E>, s: seq<T>) returns (res: Result<u64, E>)
    ensures res == Tallied(r, s)
    ensures res.Ok? <==> Acceptable(r, s)
    ensures res.Ok? ==> res.value == Sum(r.amount, s)
  {
    TalliedMeans(r, s);
    var seen: set<K> := {};
    var total: u64 := 0;
    for i := 0 to |s|
      invariant seen == Ids(r.id, s[..i])
      invariant UpTo(r, s, i) == Ok(total)
    {
      var x := s[i];
      if !r.good(x) {
        FaultSticks(r, s, i + 1, |s|);
        return Err(r.fault(x, i));
      }
      if r.id(x) in seen {
        FaultSticks(r, s, i + 1, |s|);
        return Err(r.duplicate(i));
      }
      if total + r.amount(x) >= U64_LIMIT {
        FaultSticks(r, s, i + 1, |s|);
        return Err(r.overflow);
      }
      IdsSnoc(r.id, s, i);
      seen := seen + {r.id(x)};
      total := total + r.amount(x);
    }
    return Ok(total);
  }

  // The total does not depend on the order of the list.
  lemma {:induction false} SumOfPermutation<T>(amount: T -> u64, a: seq<T>, b: seq<T>)
    requires multiset(a) == multiset(b)
    ensures Sum(amount, a) == Sum(amount, b)
    decreases |a|
  {
    assert |multiset(a)| == |a| && |multiset(b)| == |b|;
    if a != [] {
      var x, init := Last(a), a[..|a| - 1];
      var k := IndexIn(x, b, a);
      var b' := b[..k] + b[k + 1..];
      assert multiset(init) == multiset(b') by { SameWithout(a, b, k); }
      SumOfPermutation(amount, init, b');
      SumWithout(amount, b, k);
    }
  }

  lemma IndexIn<T>(x: T, b: seq<T>, a: seq<T>) returns (k: nat)
    requires x in a && multiset(a) == multiset(b)
    ensures k < |b| && b[k] == x
  {
    assert x in multiset(a) && x in multiset(b);
    k :| 0 <= k < |b| && b[k] == x;
  }

  lemma SameWithout<T>(a: seq<T>, b: seq<T>, k: nat)
    requires a != [] && k < |b| && b[k] == Last(a) && multiset(a) == multiset(b)
    ensures multiset(a[..|a| - 1]) == multiset(b[..k] + b[k + 1..])
  {
    MultisetWithout(a, |a| - 1);
    MultisetWithout(b, k);
    assert a[..|a| - 1] + a[|a|..] == a[..|a| - 1];
  }

  lemma MultisetWithout<T>(s: seq<T>, k: nat)
    requires k < |s|
    ensures multiset(s[..k] + s[k + 1..]) == multiset(s) - multiset{s[k]}
  {
    assert s == s[..k] + [s[k]] + s[k + 1..];
    assert multiset(s) == multiset(s[..k]) + multiset{s[k]} + multiset(s[k + 1..]);
  }

  lemma {:induction false} SumWithout<T>(amount: T -> u64, b: seq<T>, k: nat)
    requires k < |b|
    ensures Sum(amount, b) == Sum(amount, b[..k] + b[k + 1..]) + amount(b[k])
  {
    var b' := b[..k] + b[k + 1..];
    if k == |b| - 1 {
      assert b' == b[..|b| - 1];
    } else {
      var c := b[..|b| - 1];
      SumWithout(amount, c, k);
      assert b'[..|b'| - 1] == c[..k] + c[k + 1..];
      assert Last(b') == Last(b);
    }
  }
}
