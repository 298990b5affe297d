/** The chat server's id generator: counting in bijective base k. */
module IdIterators {
  import opened Arithmetic
  import opened GameTypes
  import opened Sequences

  const ALPHABET := "abcdefghijklmnopqrstuvwxyzABCDEFGHIJKLMNOPQRSTUVWXYZ0123456789"

  // ----- numbers and their digits, least significant first

  ghost predicate Digits(ds: seq<nat>, k: nat) {
    forall i :: 0 <= i < |ds| ==> ds[i] < k
  }

  /** Digit d at place i stands for (d + 1) times k to the i, so there is no zero digit. */
  function Value(ds: seq<nat>, k: nat): nat {
    if ds == [] then 0 else ds[0] + 1 + k * Value(ds[1..], k)
  }

  function Representation(n: nat, k: nat): (ds: seq<nat>)
    requires k > 0
    ensures Digits(ds, k)
  {
    if n == 0 then [] else
      var rest := (n - 1) / k;
      assert rest <= n - 1 by { Divided(n - 1, k); }
      [(n - 1) % k] + Representation(rest, k)
  }

  lemma ValueOfNone(k: nat)
    ensures Value([], k) == 0
  {
  }

  lemma ValueOf(d: nat, rest: seq<nat>, k: nat, v: nat)
    requires Value(rest, k) == v
    ensures Value([d] + rest, k) == d + 1 + k * v
  {
    assert ([d] + rest)[1..] == rest;
  }

  lemma {:induction false} ValueOfRepresentation(n: nat, k: nat)
    requires k > 0
    ensures Value(Representation(n, k), k) == n
  {
    if n > 0 {
      var q, d := (n - 1) / k, (n - 1) % k;
      Divided(n - 1, k);
      ValueOfRepresentation(q, k);
      ValueOf(d, Representation(q, k), k, q);
    }
  }

  lemma {:induction false} RepresentationOfValue(ds: seq<nat>, k: nat)
    requires k > 0 && Digits(ds, k)
    ensures Representation(Value(ds, k), k) == ds
  {
    if ds != [] {
      RepresentationOfValue(ds[1..], k);
      DivideBack(ds[0], k, Value(ds[1..], k));
    }
  }

  // ----- counting on

  /** Add one: full places restart and carry, a carry out of the last place adds a place. */
  function Increment(ds: seq<nat>, k: nat): seq<nat> {
    if ds == [] then [0]
    else if ds[0] + 1 == k then [0] + Increment(ds[1..], k)
    else [ds[0] + 1] + ds[1..]
  }

  lemma {:induction false} IncrementCounts(ds: seq<nat>, k: nat)
    requires k > 0 && Digits(ds, k)
    ensures Digits(Increment(ds, k), k) && Value(Increment(ds, k), k) == Value(ds, k) + 1
  {
    hide Value;
    if ds == [] {
      ValueOfNone(k);
      ValueOf(0, [], k, 0);
      assert [0] + [] == [0];
    } else {
      var rest := ds[1..];
      var v := Value(rest, k);
      assert [ds[0]] + rest == ds;
      ValueOf(ds[0], rest, k, v);
      if ds[0] + 1 == k {
        IncrementCounts(rest, k);
        ValueOf(0, Increment(rest, k), k, v + 1);
        OneMore(k, v);
      } else {
        ValueOf(ds[0] + 1, rest, k, v);
      }
    }
  }

  /** One step takes the representation of n to that of n + 1. */
  lemma NextRepresentation(n: nat, k: nat)
    requires k > 0
    ensures Increment(Representation(n, k), k) == Representation(n + 1, k)
  {
    IncrementCounts(Representation(n, k), k);
    ValueOfRepresentation(n, k);
    RepresentationOfValue(Increment(Representation(n, k), k), k);
  }

  // ----- ids

  /** The digits as characters, most significant first. */
  function Text(alphabet: string, ds: seq<nat>): (s: string)
    requires Digits(ds, |alphabet|)
    ensures |s| == |ds| && forall i :: 0 <= i < |s| ==> s[|s| - 1 - i] == alphabet[ds[i]]
  {
    if ds == [] then "" else Text(alphabet, ds[1..]) + [alphabet[ds[0]]]
  }

  /** The id handed out by the n-th call. */
  function Id(alphabet: string, n: nat): string
    requires alphabet != ""
  {
    Text(alphabet, Representation(n, |alphabet|))
  }

  /** The last character counts fastest; the characters before it are an earlier id. */
  lemma IdEndsWith(alphabet: string, n: nat)
    requires alphabet != ""
    ensures Id(alphabet, 0) == ""
    ensures n > 0 ==> Id(alphabet, n) == Id(alphabet, (n - 1) / |alphabet|) + [alphabet[(n - 1) % |alphabet|]]
  {
  }

  function IndexOf(alphabet: string, c: char): (i: nat)
    requires c in alphabet
    ensures i < |alphabet| && alphabet[i] == c
  {
    if alphabet[0] == c then 0 else 1 + IndexOf(alphabet[1..], c)
  }

  ghost predicate Over(alphabet: string, s: string) {
    forall i :: 0 <= i < |s| ==> s[i] in alphabet
  }

  /** Which call hands out this string. */
  function CallOf(alphabet: string, s: string): nat
    requires Over(alphabet, s)
  {
    if s == "" then 0
    else
      var d := IndexOf(alphabet, s[|s| - 1]);
      d + 1 + |alphabet| * CallOf(alphabet, s[..|s| - 1])
  }

  /** Every string over the alphabet is handed out by some call. */
  lemma {:induction false} EveryString(alphabet: string, s: string)
    requires alphabet != "" && Over(alphabet, s)
    ensures Id(alphabet, CallOf(alphabet, s)) == s
    ensures s != "" ==> CallOf(alphabet, s) > 0
    decreases |s|
  {
    if s != "" {
      var rest, d := s[..|s| - 1], IndexOf(alphabet, s[|s| - 1]);
      EveryString(alphabet, rest);
      DivideBack(d, |alphabet|, CallOf(alphabet, rest));
      assert s == rest + [alphabet[d]];
    }
  }

  /** The call is one more digit than the call of the rest. */
  lemma CallOfLast(alphabet: string, s: string, d: nat)
    requires Distinct(alphabet) && Over(alphabet, s) && d < |alphabet|
    ensures Over(alphabet, s + [alphabet[d]])
    ensures CallOf(alphabet, s + [alphabet[d]]) == d + 1 + |alphabet| * CallOf(alphabet, s)
  {
    var longer := s + [alphabet[d]];
    assert longer[..|s|] == s && longer[|s|] == alphabet[d];
    assert IndexOf(alphabet, alphabet[d]) == d;
  }

  /** With distinct characters, by no other call. */
  lemma {:induction false} OnlyOnce(alphabet: string, ds: seq<nat>)
    requires Distinct(alphabet) && Digits(ds, |alphabet|)
    ensures Over(alphabet, Text(alphabet, ds)) && CallOf(alphabet, Text(alphabet, ds)) == Value(ds, |alphabet|)
  {
    if ds != [] {
      OnlyOnce(alphabet, ds[1..]);
      CallOfLast(alphabet, Text(alphabet, ds[1..]), ds[0]);
    }
  }

  lemma CallOfId(alphabet: string, n: nat)
    requires alphabet != "" && Distinct(alphabet)
    ensures Over(alphabet, Id(alphabet, n)) && CallOf(alphabet, Id(alphabet, n)) == n
  {
    OnlyOnce(alphabet, Representation(n, |alphabet|));
    ValueOfRepresentation(n, |alphabet|);
  }

  /** No two calls hand out the same id exactly when the characters of the alphabet are distinct. */
  lemma NoRepeats(alphabet: string)
    requires alphabet != ""
    ensures Distinct(alphabet) <==> forall m: nat, n: nat :: Id(alphabet, m) == Id(alphabet, n) ==> m == n
  {
    if Distinct(alphabet) {
      forall m: nat, n: nat | Id(alphabet, m) == Id(alphabet, n) ensures m == n {
        CallOfId(alphabet, m);
        CallOfId(alphabet, n);
      }
    } else {
      var i, j :| 0 <= i < j < |alphabet| && alphabet[i] == alphabet[j];
      OneDigit(alphabet, i);
      OneDigit(alphabet, j);
      assert Id(alphabet, i + 1) == Id(alphabet, j + 1);
    }
  }

  lemma OneDigit(alphabet: string, d: nat)
    requires d < |alphabet|
    ensures Id(alphabet, d + 1) == [alphabet[d]]
  {
    DivideBack(d, |alphabet|, 0);
    assert Representation(d + 1, |alphabet|) == [d];
  }

  // ----- the iterator

  class IdIterator {
    const alphabet: string
    var indices: seq<nat>
    /** How many ids have been handed out since the last reset. */
    ghost var calls: nat

    ghost predicate Valid()
      reads this
    {
      alphabet != "" && indices == Representation(calls, |alphabet|)
    }

    /** A missing or empty alphabet means the default one. */
    constructor (alphabet: Option<string>)
      ensures Valid() && calls == 0
      ensures this.alphabet == if alphabet == None || alphabet == Some("") then ALPHABET else alphabet.value
    {
      this.alphabet := if alphabet.None? || alphabet.value == "" then ALPHABET else alphabet.value;
      indices, calls := [], 0;
    }

    method Reset()
      requires Valid()
      modifies this
      ensures Valid() && calls == 0
    {
      indices, calls := [], 0;
    }

    method Next() returns (id: string)
      requires Valid()
      modifies this
      ensures Valid() && calls == old(calls) + 1
      ensures id == Id(alphabet, calls)
    {
      Count();
      NextRepresentation(calls, |alphabet|);
      calls := calls + 1;
      id := Current();
    }

    method Count()
      requires alphabet != "" && Digits(indices, |alphabet|)
      modifies this`indices
      ensures indices == Increment(old(indices), |alphabet|)
    {
      var i, carry := 0, true;
      while carry && i < |indices|
        invariant i <= |indices| && Digits(indices, |alphabet|)
        invariant carry ==>
          indices[..i] + Increment(indices[i..], |alphabet|) == Increment(old(indices), |alphabet|)
        invariant !carry ==> indices == Increment(old(indices), |alphabet|)
      {
        ghost var was := indices;
        indices := indices[i := indices[i] + 1];
        if indices[i] == |alphabet| {
          indices := indices[i := 0];
        } else {
          carry := false;
        }
        CountedAt(was, |alphabet|, i, indices, carry);
        i := i + 1;
      }
      if carry {
        assert indices[..i] == indices;
        indices := indices + [0];
      }
    }

    method Current() returns (id: string)
      requires Valid()
      ensures id == Id(alphabet, calls)
    {
      var str := new char[|indices|];
      var i := 0;
      while i < str.Length
        invariant i <= str.Length
        invariant forall j :: 0 <= j < i ==> str[str.Length - j - 1] == alphabet[indices[j]]
      {
        str[str.Length - i - 1] := alphabet[indices[i]];
        i := i + 1;
      }
      id := str[..];
      ghost var text := Id(alphabet, calls);
      forall j | 0 <= j < |id| ensures id[j] == text[j] {
        var place := |id| - 1 - j;
        assert id[|id| - place - 1] == alphabet[indices[place]] == text[|text| - 1 - place];
      }
    }
  }

  /** One turn of the carry loop, at place i. */
  lemma CountedAt(was: seq<nat>, k: nat, i: nat, now: seq<nat>, carry: bool)
    requires i < |was| && carry == (was[i] + 1 == k)
    requires now == was[i := if carry then 0 else was[i] + 1]
    ensures was[..i] + Increment(was[i..], k) == if carry then now[..i + 1] + Increment(now[i + 1..], k) else now
  {
    assert was[i..][1..] == now[i + 1..] && was[i..][0] == was[i];
    assert now[..i + 1] == was[..i] + [now[i]];
    assert now == now[..i + 1] + now[i + 1..];
  }
}
