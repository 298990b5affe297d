/** Facts about sequences that several modules need. */
module Sequences {

  ghost predicate Distinct<T>(s: seq<T>) {
    forall i, j :: 0 <= i < j < |s| ==> s[i] != s[j]
  }

  function Min(a: nat, b: nat): nat { if a <= b then a else b }

  function Without<T>(s: seq<T>, j: nat): seq<T>
    requires j < |s|
  {
    s[..j] + s[j + 1..]
  }

  /** The last element can be found again in a reordering, and what is left of both is a reordering too. */
  lemma Counterpart<T>(a: seq<T>, b: seq<T>) returns (j: nat)
    requires a != [] && multiset(a) == multiset(b)
    ensures j < |b| && b[j] == a[|a| - 1] && multiset(a[..|a| - 1]) == multiset(Without(b, j))
  {
    var n := |a| - 1;
    assert a[n] in multiset(a) && a[n] in multiset(b);
    j :| 0 <= j < |b| && b[j] == a[n];
    WithoutLast(a);
    WithoutOne(a, n);
    WithoutOne(b, j);
  }

  lemma WithoutOne<T>(s: seq<T>, j: nat)
    requires j < |s|
    ensures multiset(Without(s, j)) == multiset(s) - multiset{s[j]}
  {
    assert s == s[..j] + [s[j]] + s[j + 1..];
  }

  /** The sum of `f` over a sequence. */
  function Total<T>(s: seq<T>, f: T -> int): int {
    if s == [] then 0 else Total(s[..|s| - 1], f) + f(s[|s| - 1])
  }

  lemma {:induction false} PullTotal<T>(s: seq<T>, f: T -> int, j: nat)
    requires j < |s|
    ensures Total(s, f) == Total(Without(s, j), f) + f(s[j])
    decreases |s|
  {
    if j == |s| - 1 {
      WithoutLast(s);
    } else {
      PullTotal(s[..|s| - 1], f, j);
      WithoutPrefix(s, j);
    }
  }

  /** A sum does not depend on the order. */
  lemma {:induction false} SameTotal<T>(a: seq<T>, b: seq<T>, f: T -> int)
    requires multiset(a) == multiset(b)
    ensures Total(a, f) == Total(b, f)
    decreases |a|
  {
    if a == [] {
      assert |multiset(b)| == 0;
    } else {
      var j := Counterpart(a, b);
      SameTotal(a[..|a| - 1], Without(b, j), f);
      PullTotal(b, f, j);
    }
  }

  /** Leaving out an element that is not the last one. */
  lemma WithoutPrefix<T>(s: seq<T>, j: nat)
    requires j < |s| - 1
    ensures var n, rest := |s| - 1, Without(s, j);
            rest != [] && rest[|rest| - 1] == s[n] && rest[..|rest| - 1] == Without(s[..n], j)
  {
  }

  lemma WithoutLast<T>(s: seq<T>)
    requires s != []
    ensures Without(s, |s| - 1) == s[..|s| - 1]
  {
  }

  lemma {:induction false} Pigeonhole<T>(s: seq<T>, t: seq<T>)
    requires Distinct(s) && forall i :: 0 <= i < |s| ==> s[i] in t
    ensures |s| <= |t|
    decreases |s|
  {
    if s != [] {
      var n := |s| - 1;
      var j :| 0 <= j < |t| && t[j] == s[n];
      forall i | 0 <= i < n ensures s[..n][i] in Without(t, j) {
        var k :| 0 <= k < |t| && t[k] == s[i];
        assert Without(t, j)[if k < j then k else k - 1] == s[i];
      }
      Pigeonhole(s[..n], Without(t, j));
    }
  }

  lemma OnceCounted<T>(s: seq<T>, x: T, i: nat)
    requires i < |s| && s[i] == x && forall k :: 0 <= k < |s| && k != i ==> s[k] != x
    ensures multiset(s)[x] == 1
  {
    assert s == s[..i] + [x] + s[i + 1..];
    assert x !in s[..i] && x !in s[i + 1..];
  }

  lemma TwiceCounted<T>(s: seq<T>, i: nat, j: nat)
    requires i < j < |s| && s[i] == s[j]
    ensures multiset(s)[s[i]] >= 2
  {
    assert s == s[..i] + [s[i]] + s[i + 1..j] + [s[j]] + s[j + 1..];
  }

  // ----- every sequence has a sorted order

  ghost predicate SortedBy<T>(s: seq<T>, key: T -> int) {
    forall i, j :: 0 <= i < j < |s| ==> key(s[i]) <= key(s[j])
  }

  /** Where `x` goes in a sorted sequence. */
  lemma {:induction false} SortedPlace<T>(x: T, s: seq<T>, key: T -> int) returns (p: nat)
    requires SortedBy(s, key)
    ensures p <= |s| && SortedBy(s[..p] + [x] + s[p..], key)
  {
    p := |s|;
    while p > 0 && key(x) < key(s[p - 1])
      invariant p <= |s| && forall i :: p <= i < |s| ==> key(x) <= key(s[i])
    {
      p := p - 1;
    }
  }

  lemma {:induction false} SortExists<T>(s: seq<T>, key: T -> int) returns (r: seq<T>)
    ensures SortedBy(r, key) && multiset(r) == multiset(s)
    decreases |s|
  {
    if s == [] {
      r := [];
    } else {
      var n := |s| - 1;
      var sorted := SortExists(s[..n], key);
      var p := SortedPlace(s[n], sorted, key);
      r := sorted[..p] + [s[n]] + sorted[p..];
      assert s == s[..n] + [s[n]] && sorted == sorted[..p] + sorted[p..];
    }
  }
}
