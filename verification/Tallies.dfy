/** Tables of numbers and the sum of their entries. */
module Tallies {

  type Tally = map<string, int>

  ghost function Pick(m: Tally): (k: string)
    requires m != map[]
    ensures k in m
  {
    assert m.Keys != {};
    var k :| k in m; k
  }

  ghost function SumOf(m: Tally): int
    decreases |m|
  {
    if m == map[] then 0 else var k := Pick(m); m[k] + SumOf(m - {k})
  }

  lemma {:induction false} SumSplit(m: Tally, k: string)
    requires k in m
    ensures SumOf(m) == m[k] + SumOf(m - {k})
    decreases |m|
  {
    var j := Pick(m);
    if j != k {
      SumSplit(m - {j}, k);
      SumSplit(m - {k}, j);
      assert m - {j} - {k} == m - {k} - {j};
    }
  }

  lemma SumRaise(m: Tally, k: string, n: int)
    requires k in m
    ensures SumOf(m[k := m[k] + n]) == SumOf(m) + n
  {
    var m' := m[k := m[k] + n];
    SumSplit(m, k);
    SumSplit(m', k);
    assert m' - {k} == m - {k};
  }

  /** One entry raised by `n`, the others left alone. */
  lemma RaiseOne(before: Tally, after: Tally, k: string, n: int)
    requires before.Keys == after.Keys && k in before
    requires forall j :: j in before ==> after[j] == before[j] + if j == k then n else 0
    ensures SumOf(after) == SumOf(before) + n
  {
    SumRaise(before, k, n);
    assert after == before[k := before[k] + n];
  }

  lemma {:induction false} SumZero(m: Tally)
    requires forall k :: k in m ==> m[k] == 0
    ensures SumOf(m) == 0
    decreases |m|
  {
    if m != map[] { SumZero(m - {Pick(m)}); }
  }
}
