/** The score a team's points add up to over time, read off an unordered collection of point events. */
module ScoreCurve {
  import opened Sequences

  datatype Score = Score(time: int, points: int)

  /** One corner of the curve: from `time` on the team has `total` points. */
  datatype Corner = Corner(time: int, total: int)

  function Sum(scores: seq<Score>): int {
    if scores == [] then 0 else Sum(scores[..|scores| - 1]) + scores[|scores| - 1].points
  }

  /** All points earned up to and including time `t`. */
  function SumUpTo(scores: seq<Score>, t: int): int {
    if scores == [] then 0
    else SumUpTo(scores[..|scores| - 1], t)
         + if scores[|scores| - 1].time <= t then scores[|scores| - 1].points else 0
  }

  predicate Sorted(scores: seq<Score>) {
    forall i, j :: 0 <= i < j < |scores| ==> scores[i].time <= scores[j].time
  }

  ghost predicate Rising(curve: seq<Corner>) {
    forall i, j :: 0 <= i < j < |curve| ==> curve[i].time < curve[j].time
  }

  ghost predicate HasTime(scores: seq<Score>, t: int) {
    exists i :: 0 <= i < |scores| && scores[i].time == t
  }

  ghost predicate HasCorner(curve: seq<Corner>, t: int) {
    exists i :: 0 <= i < |curve| && curve[i].time == t
  }

  /** One corner for each time at which points were earned, holding the sum of all points up to it. */
  ghost predicate IsCurve(curve: seq<Corner>, scores: seq<Score>) {
    && Rising(curve)
    && (forall t :: HasCorner(curve, t) <==> HasTime(scores, t))
    && (forall i :: 0 <= i < |curve| ==> curve[i].total == SumUpTo(scores, curve[i].time))
  }

  // ----- sums

  lemma {:induction false} SumConcat(a: seq<Score>, b: seq<Score>)
    ensures Sum(a + b) == Sum(a) + Sum(b)
    decreases |b|
  {
    if b == [] {
      assert a + b == a;
    } else {
      SumConcat(a, b[..|b| - 1]);
      assert (a + b)[..|a + b| - 1] == a + b[..|b| - 1];
    }
  }

  lemma {:induction false} SumUpToAll(scores: seq<Score>, t: int)
    requires forall i :: 0 <= i < |scores| ==> scores[i].time <= t
    ensures SumUpTo(scores, t) == Sum(scores)
  {
    if scores != [] {
      SumUpToAll(scores[..|scores| - 1], t);
    }
  }

  lemma {:induction false} ScoresTotal(scores: seq<Score>, t: int, upTo: Score -> int, all: Score -> int)
    requires forall s :: upTo(s) == (if s.time <= t then s.points else 0) && all(s) == s.points
    ensures SumUpTo(scores, t) == Total(scores, upTo) && Sum(scores) == Total(scores, all)
    decreases |scores|
  {
    if scores != [] { ScoresTotal(scores[..|scores| - 1], t, upTo, all); }
  }

  lemma SameSums(a: seq<Score>, b: seq<Score>, t: int)
    requires multiset(a) == multiset(b)
    ensures SumUpTo(a, t) == SumUpTo(b, t) && Sum(a) == Sum(b)
  {
    var upTo, all := (s: Score) => if s.time <= t then s.points else 0, (s: Score) => s.points;
    ScoresTotal(a, t, upTo, all);
    ScoresTotal(b, t, upTo, all);
    SameTotal(a, b, upTo);
    SameTotal(a, b, all);
  }

  // ----- the curve belongs to the multiset of scores, not to their order

  lemma SameCurve(curve: seq<Corner>, a: seq<Score>, b: seq<Score>)
    requires IsCurve(curve, a) && multiset(a) == multiset(b)
    ensures IsCurve(curve, b)
  {
    forall t ensures HasTime(a, t) <==> HasTime(b, t) {
      TimesMove(a, b, t);
      TimesMove(b, a, t);
    }
    forall i | 0 <= i < |curve| ensures curve[i].total == SumUpTo(b, curve[i].time) {
      SameSums(a, b, curve[i].time);
    }
  }

  lemma TimesMove(a: seq<Score>, b: seq<Score>, t: int)
    requires multiset(a) == multiset(b)
    ensures HasTime(a, t) ==> HasTime(b, t)
  {
    if HasTime(a, t) {
      var i :| 0 <= i < |a| && a[i].time == t;
      assert a[i] in multiset(b);
      var j :| 0 <= j < |b| && b[j] == a[i];
    }
  }

  /** At most one curve fits a collection of scores. */
  lemma CurveUnique(c: seq<Corner>, c': seq<Corner>, scores: seq<Score>)
    requires IsCurve(c, scores) && IsCurve(c', scores)
    ensures c == c'
  {
    assert forall t :: HasCorner(c, t) <==> HasCorner(c', t);
    SameTimes(c, c');
  }

  lemma {:induction false} SameTimes(c: seq<Corner>, c': seq<Corner>)
    requires Rising(c) && Rising(c') && forall t :: HasCorner(c, t) <==> HasCorner(c', t)
    ensures |c| == |c'| && forall i :: 0 <= i < |c| ==> c[i].time == c'[i].time
    decreases |c|
  {
    assert c != [] ==> HasCorner(c, c[0].time);
    assert c' != [] ==> HasCorner(c', c'[0].time);
    if c != [] && c' != [] {
      var n := |c| - 1;
      assert HasCorner(c, c[n].time);
      var m := |c'| - 1;
      assert HasCorner(c', c'[m].time);
      var i :| 0 <= i < |c| && c[i].time == c'[m].time;
      var j :| 0 <= j < |c'| && c'[j].time == c[n].time;
      assert c[n].time == c'[m].time;
      forall t ensures HasCorner(c[..n], t) <==> HasCorner(c'[..m], t) {
        DropLast(c, t);
        DropLast(c', t);
      }
      SameTimes(c[..n], c'[..m]);
    }
  }

  lemma DropLast(c: seq<Corner>, t: int)
    requires c != [] && Rising(c)
    ensures HasCorner(c[..|c| - 1], t) <==> HasCorner(c, t) && t != c[|c| - 1].time
  {
    if HasCorner(c, t) && t != c[|c| - 1].time {
      var i :| 0 <= i < |c| && c[i].time == t;
      assert c[..|c| - 1][i].time == t;
    }
    if HasCorner(c[..|c| - 1], t) {
      var i :| 0 <= i < |c| - 1 && c[..|c| - 1][i].time == t;
      assert c[i].time == t;
    }
  }

  // ----- sorting and merging

  /** The library sort by time: any sorted order, however it breaks ties. */
  method SortByTime(scores: seq<Score>) returns (r: seq<Score>)
    ensures Sorted(r) && multiset(r) == multiset(scores)
  {
    ghost var one := SortExists(scores, (s: Score) => s.time);
    assert Sorted(one);
    r :| Sorted(r) && multiset(r) == multiset(scores);
  }

  lemma AddLast(scores: seq<Score>, s: Score, t: int)
    ensures SumUpTo(scores + [s], t) == SumUpTo(scores, t) + if s.time <= t then s.points else 0
    ensures Sum(scores + [s]) == Sum(scores) + s.points
    ensures HasTime(scores + [s], t) <==> HasTime(scores, t) || s.time == t
  {
    var more := scores + [s];
    assert more[..|scores|] == scores;
    if HasTime(scores, t) {
      var i :| 0 <= i < |scores| && scores[i].time == t;
      assert more[i].time == t;
    }
    if s.time == t { assert more[|scores|].time == t; }
  }

  /** Put `corner` at the end of the curve, in place of a last corner with the same time. */
  function Place(curve: seq<Corner>, corner: Corner): seq<Corner> {
    if curve != [] && curve[|curve| - 1].time == corner.time then curve[|curve| - 1 := corner] else curve + [corner]
  }

  lemma {:induction false} PlaceCorner(curve: seq<Corner>, corner: Corner, t: int)
    ensures HasCorner(Place(curve, corner), t) <==> HasCorner(curve, t) || corner.time == t
  {
    var placed := Place(curve, corner);
    assert placed[|placed| - 1] == corner;
    if HasCorner(curve, t) && t != corner.time {
      var i :| 0 <= i < |curve| && curve[i].time == t;
      assert placed[i].time == t;
    }
    if HasCorner(placed, t) && t != corner.time {
      var i :| 0 <= i < |placed| && placed[i].time == t;
      assert curve[i].time == t;
    }
  }

  lemma {:induction false} PlaceRises(curve: seq<Corner>, corner: Corner)
    requires Rising(curve) && forall i :: 0 <= i < |curve| ==> curve[i].time <= corner.time
    ensures Rising(Place(curve, corner))
  {
  }

  /** The merged curve after one more score, which is no earlier than all before it. */
  lemma {:induction false} Extend(curve: seq<Corner>, scores: seq<Score>, s: Score)
    requires IsCurve(curve, scores) && forall i :: 0 <= i < |scores| ==> scores[i].time <= s.time
    ensures IsCurve(Place(curve, Corner(s.time, Sum(scores) + s.points)), scores + [s])
  {
    hide HasTime, Sum, SumUpTo;
    var corner := Corner(s.time, Sum(scores) + s.points);
    var placed := Place(curve, corner);
    forall i | 0 <= i < |curve| ensures curve[i].time <= s.time {
      CornerTime(curve, scores, s.time, i);
    }
    PlaceRises(curve, corner);
    forall t ensures HasCorner(placed, t) <==> HasTime(scores + [s], t) {
      PlaceCorner(curve, corner, t);
      AddLast(scores, s, t);
    }
    forall i | 0 <= i < |placed| ensures placed[i].total == SumUpTo(scores + [s], placed[i].time) {
      AddLast(scores, s, placed[i].time);
      if i == |placed| - 1 {
        SumUpToAll(scores, s.time);
      } else {
        assert placed[i] == curve[i] && placed[i].time < placed[|placed| - 1].time;
      }
    }
  }

  lemma CornerTime(curve: seq<Corner>, scores: seq<Score>, t: int, i: nat)
    requires (forall u :: HasCorner(curve, u) <==> HasTime(scores, u)) && i < |curve|
    requires forall j :: 0 <= j < |scores| ==> scores[j].time <= t
    ensures curve[i].time <= t
  {
    assert HasCorner(curve, curve[i].time);
    var j :| 0 <= j < |scores| && scores[j].time == curve[i].time;
  }

  /** The accumulation loop of `data`: a score at the time of the last corner moves that corner. */
  method Merge(sorted: seq<Score>) returns (curve: seq<Corner>, total: int)
    requires Sorted(sorted)
    ensures IsCurve(curve, sorted) && total == Sum(sorted)
  {
    curve, total := [], 0;
    var n := 0;
    while n < |sorted|
      invariant n <= |sorted| && total == Sum(sorted[..n]) && IsCurve(curve, sorted[..n])
    {
      var score := sorted[n];
      assert sorted[..n + 1] == sorted[..n] + [score];
      Extend(curve, sorted[..n], score);
      AddLast(sorted[..n], score, score.time);
      total := total + score.points;
      if |curve| > 0 && curve[|curve| - 1].time == score.time {
        curve := curve[|curve| - 1 := Corner(score.time, total)];
      } else {
        curve := curve + [Corner(score.time, total)];
      }
      n := n + 1;
    }
    assert sorted[..n] == sorted;
  }

  /** The last corner holds everything. */
  lemma CurveEnds(curve: seq<Corner>, scores: seq<Score>)
    requires IsCurve(curve, scores)
    ensures curve == [] <==> scores == []
    ensures curve != [] ==> curve[|curve| - 1].total == Sum(scores)
  {
    if scores != [] { assert HasTime(scores, scores[0].time); }
    if curve != [] {
      assert HasCorner(curve, curve[0].time);
      forall i | 0 <= i < |scores| ensures scores[i].time <= curve[|curve| - 1].time {
        assert HasTime(scores, scores[i].time);
      }
      SumUpToAll(scores, curve[|curve| - 1].time);
    }
  }
}
