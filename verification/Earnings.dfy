/** When points count: a line's height at any time, summed over the fields of the documents. */
module Earnings {
  import opened GameTypes
  import opened ScoreCurve
  import opened Scoreboard

  // ----- what a document has earned a team by time `t`

  /** Deliver and defend points count from the plant time on, unless they come to nothing or less. */
  function PlantEarned(p: Points, d: Doc, t: int): int {
    var points := p.deliver + if d.captures == [] then p.defend else 0;
    if d.delivered && points > 0 && d.time <= t then points else 0
  }

  function ChecksBy(checks: seq<Check>, t: int): nat {
    if checks == [] then 0
    else var last := checks[|checks| - 1];
         ChecksBy(checks[..|checks| - 1], t) + if last.result && last.time <= t then 1 else 0
  }

  function StealsBy(captures: seq<Capture>, team: string, t: int): nat {
    if captures == [] then 0
    else var last := captures[|captures| - 1];
         StealsBy(captures[..|captures| - 1], team, t) + if last.team == team && last.time <= t then 1 else 0
  }

  function DocEarned(p: Points, d: Doc, team: string, t: int): int {
    (if d.team == team then PlantEarned(p, d, t) + ChecksBy(d.checks, t) * p.check else 0)
    + StealsBy(d.captures, team, t) * p.capture
  }

  function RanksEarned(ranks: seq<Rank>, team: string, t: int): int {
    if ranks == [] then 0
    else var last := ranks[|ranks| - 1];
         RanksEarned(ranks[..|ranks| - 1], team, t) + if last.team == team && last.time <= t then last.points else 0
  }

  function DocsEarned(p: Points, docs: seq<Doc>, team: string, t: int): int {
    if docs == [] then 0 else DocsEarned(p, docs[..|docs| - 1], team, t) + DocEarned(p, docs[|docs| - 1], team, t)
  }

  function ChallengesEarned(challenges: seq<Challenge>, team: string, t: int): int {
    if challenges == [] then 0
    else ChallengesEarned(challenges[..|challenges| - 1], team, t) + RanksEarned(challenges[|challenges| - 1].rank, team, t)
  }

  function Earned(p: Points, docs: seq<Doc>, challenges: seq<Challenge>, team: string, t: int): int {
    DocsEarned(p, docs, team, t) + ChallengesEarned(challenges, team, t)
  }

  // ----- the point events add up to that

  lemma {:induction false} UpToConcat(a: seq<Score>, b: seq<Score>, t: int)
    ensures SumUpTo(a + b, t) == SumUpTo(a, t) + SumUpTo(b, t)
    decreases |b|
  {
    if b == [] {
      assert a + b == a;
    } else {
      UpToConcat(a, b[..|b| - 1], t);
      assert (a + b)[..|a + b| - 1] == a + b[..|b| - 1];
    }
  }

  lemma UpToOne(time: int, points: int, t: int)
    ensures SumUpTo([Score(time, points)], t) == if time <= t then points else 0
  {
    assert [Score(time, points)][..0] == [];
  }

  lemma {:induction false} ChecksUpTo(p: Points, checks: seq<Check>, t: int)
    ensures SumUpTo(CheckScores(p, checks), t) == ChecksBy(checks, t) * p.check
  {
    if checks != [] {
      var rest, last := checks[..|checks| - 1], checks[|checks| - 1];
      ChecksUpTo(p, rest, t);
      UpToConcat(CheckScores(p, rest), if last.result then [Score(last.time, p.check)] else [], t);
      UpToOne(last.time, p.check, t);
      Distribute(ChecksBy(rest, t), if last.result && last.time <= t then 1 else 0, p.check);
    }
  }

  lemma {:induction false} StealsUpTo(p: Points, captures: seq<Capture>, team: string, t: int)
    ensures SumUpTo(CaptureScores(p, captures, team), t) == StealsBy(captures, team, t) * p.capture
  {
    if captures != [] {
      var rest, last := captures[..|captures| - 1], captures[|captures| - 1];
      StealsUpTo(p, rest, team, t);
      UpToConcat(CaptureScores(p, rest, team), if last.team == team then [Score(last.time, p.capture)] else [], t);
      UpToOne(last.time, p.capture, t);
      Distribute(StealsBy(rest, team, t), if last.team == team && last.time <= t then 1 else 0, p.capture);
    }
  }

  lemma {:induction false} RanksUpTo(ranks: seq<Rank>, team: string, t: int)
    ensures SumUpTo(RankScores(ranks, team), t) == RanksEarned(ranks, team, t)
  {
    if ranks != [] {
      var rest, last := ranks[..|ranks| - 1], ranks[|ranks| - 1];
      RanksUpTo(rest, team, t);
      UpToConcat(RankScores(rest, team), if last.team == team then [Score(last.time, last.points)] else [], t);
      UpToOne(last.time, last.points, t);
    }
  }

  lemma PlantUpTo(p: Points, d: Doc, t: int)
    ensures SumUpTo(PlantScores(p, d), t) == PlantEarned(p, d, t)
  {
    UpToOne(d.time, PlantPoints(p, d), t);
  }

  lemma DocUpTo(p: Points, d: Doc, team: string, t: int)
    ensures SumUpTo(DocScores(p, d, team), t) == DocEarned(p, d, team, t)
  {
    hide PlantScores, CheckScores, CaptureScores, PlantEarned, ChecksBy, StealsBy;
    var own := if d.team == team then PlantScores(p, d) + CheckScores(p, d.checks) else [];
    UpToConcat(own, CaptureScores(p, d.captures, team), t);
    UpToConcat(PlantScores(p, d), CheckScores(p, d.checks), t);
    PlantUpTo(p, d, t);
    ChecksUpTo(p, d.checks, t);
    StealsUpTo(p, d.captures, team, t);
  }

  lemma {:induction false} DocsUpTo(p: Points, docs: seq<Doc>, team: string, t: int)
    ensures SumUpTo(DocsScores(p, docs, team), t) == DocsEarned(p, docs, team, t)
  {
    if docs != [] {
      var rest, d := docs[..|docs| - 1], docs[|docs| - 1];
      DocsUpTo(p, rest, team, t);
      DocUpTo(p, d, team, t);
      UpToConcat(DocsScores(p, rest, team), DocScores(p, d, team), t);
    }
  }

  lemma {:induction false} ChallengesUpTo(challenges: seq<Challenge>, team: string, t: int)
    ensures SumUpTo(ChallengesScores(challenges, team), t) == ChallengesEarned(challenges, team, t)
  {
    if challenges != [] {
      var rest, last := challenges[..|challenges| - 1], challenges[|challenges| - 1];
      ChallengesUpTo(rest, team, t);
      RanksUpTo(last.rank, team, t);
      UpToConcat(ChallengesScores(rest, team), RankScores(last.rank, team), t);
    }
  }

  /** What a team's point events add up to by a time is what the fields of the documents say it had earned by then. */
  lemma EarnedUpTo(p: Points, docs: seq<Doc>, challenges: seq<Challenge>, team: string, t: int)
    ensures SumUpTo(Scores(p, docs, challenges, team), t) == Earned(p, docs, challenges, team, t)
  {
    UpToConcat(DocsScores(p, docs, team), ChallengesScores(challenges, team), t);
    DocsUpTo(p, docs, team, t);
    ChallengesUpTo(challenges, team, t);
  }

  /** The height of a line at time `t`: the total of its last corner up to then. */
  function HeightAt(corners: seq<Corner>, t: int): int {
    if corners == [] then 0
    else if corners[|corners| - 1].time <= t then corners[|corners| - 1].total
    else HeightAt(corners[..|corners| - 1], t)
  }

  lemma {:induction false} HeightIsSum(corners: seq<Corner>, scores: seq<Score>, n: nat, t: int)
    requires IsCurve(corners, scores) && n <= |corners| && (n < |corners| ==> t < corners[n].time)
    ensures HeightAt(corners[..n], t) == SumUpTo(scores, t)
    decreases n
  {
    if n == 0 {
      forall i | 0 <= i < |scores| ensures scores[i].time > t {
        assert HasTime(scores, scores[i].time);
        assert HasCorner(corners, scores[i].time);
      }
      NothingYet(scores, t);
    } else {
      assert corners[..n][..n - 1] == corners[..n - 1];
      var last := corners[n - 1];
      if last.time <= t {
        forall i | 0 <= i < |scores| ensures scores[i].time <= t <==> scores[i].time <= last.time {
          assert HasTime(scores, scores[i].time);
          var k :| 0 <= k < |corners| && corners[k].time == scores[i].time;
        }
        SameUpTo(scores, t, last.time);
      } else {
        HeightIsSum(corners, scores, n - 1, t);
      }
    }
  }

  lemma {:induction false} NothingYet(scores: seq<Score>, t: int)
    requires forall i :: 0 <= i < |scores| ==> scores[i].time > t
    ensures SumUpTo(scores, t) == 0
  {
    if scores != [] { NothingYet(scores[..|scores| - 1], t); }
  }

  lemma {:induction false} SameUpTo(scores: seq<Score>, t: int, t': int)
    requires forall i :: 0 <= i < |scores| ==> (scores[i].time <= t <==> scores[i].time <= t')
    ensures SumUpTo(scores, t) == SumUpTo(scores, t')
  {
    if scores != [] { SameUpTo(scores[..|scores| - 1], t, t'); }
  }

  /** At every time a team's line is as high as the points the documents say it had earned by then. */
  lemma LineIsEarned(p: Points, docs: seq<Doc>, challenges: seq<Challenge>, team: string,
                     series: Series, low: real, high: real, t: int)
    requires IsSeries(series, low, high, Scores(p, docs, challenges, team))
    ensures HeightAt(series.corners, t) == Earned(p, docs, challenges, team, t)
  {
    hide IsCurve, Scores, Earned;
    assert series.corners[..|series.corners|] == series.corners;
    HeightIsSum(series.corners, Scores(p, docs, challenges, team), |series.corners|, t);
    EarnedUpTo(p, docs, challenges, team, t);
  }
}
