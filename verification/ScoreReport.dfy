/** What the generated report means: totals, ranges, independence of order, and the ledger. */
module ScoreReport {
  import opened GameTypes
  import opened ScoreCurve
  import opened Scoreboard
  import opened Sequences
  import Steps = DaemonSteps
  import Ledger

  // ----- the curve's final total and the table's points

  function Shortfall(p: Points, docs: seq<Doc>, team: string): nat {
    if docs == [] then 0
    else
      var d := docs[|docs| - 1];
      Shortfall(p, docs[..|docs| - 1], team) + if d.team == team && PlantPoints(p, d) < 0 then -PlantPoints(p, d) else 0
  }

  lemma {:induction false} CheckSum(p: Points, checks: seq<Check>)
    ensures Sum(CheckScores(p, checks)) == GoodChecks(checks) * p.check
  {
    if checks != [] {
      var rest, last := checks[..|checks| - 1], checks[|checks| - 1];
      CheckSum(p, rest);
      var one := if last.result then [Score(last.time, p.check)] else [];
      SumConcat(CheckScores(p, rest), one);
      SumOne(last.time, p.check);
      Distribute(GoodChecks(rest), if last.result then 1 else 0, p.check);
    }
  }

  lemma {:induction false} CaptureSum(p: Points, captures: seq<Capture>, team: string)
    ensures Sum(CaptureScores(p, captures, team)) == CapturesBy(captures, team) * p.capture
  {
    if captures != [] {
      var rest, last := captures[..|captures| - 1], captures[|captures| - 1];
      CaptureSum(p, rest, team);
      var one := if last.team == team then [Score(last.time, p.capture)] else [];
      SumConcat(CaptureScores(p, rest, team), one);
      SumOne(last.time, p.capture);
      Distribute(CapturesBy(rest, team), if last.team == team then 1 else 0, p.capture);
    }
  }

  lemma {:induction false} SumOne(time: int, points: int)
    ensures Sum([Score(time, points)]) == points
  {
    assert [Score(time, points)][..0] == [];
  }

  lemma {:induction false} RankSum(ranks: seq<Rank>, team: string)
    ensures Sum(RankScores(ranks, team)) == RankPoints(ranks, team)
  {
    if ranks != [] {
      var rest, last := ranks[..|ranks| - 1], ranks[|ranks| - 1];
      RankSum(rest, team);
      var one := if last.team == team then [Score(last.time, last.points)] else [];
      SumConcat(RankScores(rest, team), one);
      SumOne(last.time, last.points);
    }
  }

  lemma DocSum(p: Points, d: Doc, team: string)
    ensures Sum(DocScores(p, d, team))
         == DocPoints(p, d, team) + if d.team == team && PlantPoints(p, d) < 0 then -PlantPoints(p, d) else 0
  {
    var own := if d.team == team then PlantScores(p, d) + CheckScores(p, d.checks) else [];
    SumConcat(own, CaptureScores(p, d.captures, team));
    SumConcat(PlantScores(p, d), CheckScores(p, d.checks));
    CheckSum(p, d.checks);
    CaptureSum(p, d.captures, team);
    SumOne(d.time, PlantPoints(p, d));
  }

  lemma {:induction false} DocsSum(p: Points, docs: seq<Doc>, team: string)
    ensures Sum(DocsScores(p, docs, team)) == DocsPoints(p, docs, team) + Shortfall(p, docs, team)
  {
    if docs != [] {
      var rest, d := docs[..|docs| - 1], docs[|docs| - 1];
      DocsSum(p, rest, team);
      DocSum(p, d, team);
      SumConcat(DocsScores(p, rest, team), DocScores(p, d, team));
    }
  }

  lemma {:induction false} ChallengesSum(challenges: seq<Challenge>, team: string)
    ensures Sum(ChallengesScores(challenges, team)) == ChallengesPoints(challenges, team)
  {
    if challenges != [] {
      var rest, last := challenges[..|challenges| - 1], challenges[|challenges| - 1];
      ChallengesSum(rest, team);
      RankSum(last.rank, team);
      SumConcat(ChallengesScores(rest, team), RankScores(last.rank, team));
    }
  }

  /** No document of the team has negative delivery and defence points, which the curve leaves out. */
  ghost predicate NoNegativePlant(p: Points, docs: seq<Doc>, team: string) {
    forall i :: 0 <= i < |docs| && docs[i].team == team ==> PlantPoints(p, docs[i]) >= 0
  }

  lemma {:induction false} ShortfallZero(p: Points, docs: seq<Doc>, team: string)
    ensures Shortfall(p, docs, team) == 0 <==> NoNegativePlant(p, docs, team)
  {
    if docs != [] {
      var n := |docs| - 1;
      ShortfallZero(p, docs[..n], team);
      if NoNegativePlant(p, docs[..n], team) && !(docs[n].team == team && PlantPoints(p, docs[n]) < 0) {
        forall i | 0 <= i < |docs| && docs[i].team == team ensures PlantPoints(p, docs[i]) >= 0 {
          assert i < n ==> docs[..n][i] == docs[i];
        }
      }
      if NoNegativePlant(p, docs, team) {
        forall i | 0 <= i < n && docs[..n][i].team == team ensures PlantPoints(p, docs[..n][i]) >= 0 {
          assert docs[..n][i] == docs[i];
        }
      }
    }
  }

  /** The last total of a team's line is its table points exactly when no negative points were left out. */
  lemma FinalTotalIsTablePoints(p: Points, docs: seq<Doc>, challenges: seq<Challenge>, team: string)
    ensures Sum(Scores(p, docs, challenges, team)) == Worth(p, docs, challenges, team)
            <==> NoNegativePlant(p, docs, team)
  {
    SumConcat(DocsScores(p, docs, team), ChallengesScores(challenges, team));
    DocsSum(p, docs, team);
    ChallengesSum(challenges, team);
    ShortfallZero(p, docs, team);
  }

  /** With negative deliver points a single delivered flag makes the table and the curve differ. */
  lemma NegativePlantDiffers()
    ensures var p, d := Points(-1, 0, 0, 0), Doc("A0", "n", "Ring0", "HighLow", [], [], true, 0);
            Sum(Scores(p, [d], [], "Ring0")) == 0 && Worth(p, [d], [], "Ring0") == -1
  {
    var p, d := Points(-1, 0, 0, 0), Doc("A0", "n", "Ring0", "HighLow", [], [], true, 0);
    assert [d][..0] == [];
    assert DocScores(p, d, "Ring0") == [] && DocPoints(p, d, "Ring0") == -1;
    assert DocsScores(p, [d], "Ring0") == DocsScores(p, [], "Ring0") + [];
    assert DocsPoints(p, [d], "Ring0") == DocsPoints(p, [], "Ring0") + -1;
  }

  /** With non-negative deliver and defend points that is always so. */
  lemma UsualPointsAgree(p: Points, docs: seq<Doc>, challenges: seq<Challenge>, team: string)
    requires p.deliver >= 0 && p.deliver + p.defend >= 0
    ensures Sum(Scores(p, docs, challenges, team)) == Worth(p, docs, challenges, team)
  {
    FinalTotalIsTablePoints(p, docs, challenges, team);
  }

  // ----- all times lie between the two end points

  ghost predicate AllIn(scores: seq<Score>, times: set<int>) {
    forall i :: 0 <= i < |scores| ==> scores[i].time in times
  }

  lemma {:induction false} CaptureTimesIn(p: Points, captures: seq<Capture>, team: string)
    ensures AllIn(CaptureScores(p, captures, team), CaptureTimes(captures))
  {
    if captures != [] { CaptureTimesIn(p, captures[..|captures| - 1], team); }
  }

  lemma {:induction false} CheckTimesIn(p: Points, checks: seq<Check>)
    ensures AllIn(CheckScores(p, checks), CheckTimes(checks))
  {
    if checks != [] { CheckTimesIn(p, checks[..|checks| - 1]); }
  }

  lemma {:induction false} RankTimesIn(ranks: seq<Rank>, team: string)
    ensures AllIn(RankScores(ranks, team), RankTimes(ranks))
  {
    if ranks != [] { RankTimesIn(ranks[..|ranks| - 1], team); }
  }

  lemma {:induction false} DocTimesIn(p: Points, d: Doc, team: string)
    ensures AllIn(DocScores(p, d, team), DocTimes(d))
  {
    CheckTimesIn(p, d.checks);
    CaptureTimesIn(p, d.captures, team);
  }

  lemma {:induction false} FlagTimesIn(p: Points, docs: seq<Doc>, team: string)
    ensures AllIn(DocsScores(p, docs, team), FlagTimes(docs))
  {
    if docs != [] {
      FlagTimesIn(p, docs[..|docs| - 1], team);
      DocTimesIn(p, docs[|docs| - 1], team);
    }
  }

  lemma {:induction false} ChallengeTimesIn(challenges: seq<Challenge>, team: string)
    ensures AllIn(ChallengesScores(challenges, team), ChallengeTimes(challenges))
  {
    if challenges != [] {
      ChallengeTimesIn(challenges[..|challenges| - 1], team);
      RankTimesIn(challenges[|challenges| - 1].rank, team);
    }
  }

  lemma CornersInRange(p: Points, docs: seq<Doc>, challenges: seq<Challenge>, team: string,
                       series: Series, low: real, high: real)
    requires IsLow(low, Times(docs, challenges)) && IsHigh(high, Times(docs, challenges))
    requires IsSeries(series, low, high, Scores(p, docs, challenges, team))
    ensures forall i :: 0 <= i < |series.corners| ==> low <= series.corners[i].time as real <= high
  {
    var scores := Scores(p, docs, challenges, team);
    FlagTimesIn(p, docs, team);
    ChallengeTimesIn(challenges, team);
    forall i | 0 <= i < |series.corners| ensures series.corners[i].time in Times(docs, challenges) {
      var t := series.corners[i].time;
      assert HasCorner(series.corners, t);
      var j :| 0 <= j < |scores| && scores[j].time == t;
    }
  }

  // ----- neither the order of the documents nor the sort's tie-breaking shows

  lemma {:induction false} DocsTotal(p: Points, docs: seq<Doc>, team: string, x: Score, f: Doc -> int)
    requires forall d :: f(d) == multiset(DocScores(p, d, team))[x]
    ensures multiset(DocsScores(p, docs, team))[x] == Total(docs, f)
    decreases |docs|
  {
    if docs != [] { DocsTotal(p, docs[..|docs| - 1], team, x, f); }
  }

  lemma {:induction false} ChallengesTotal(challenges: seq<Challenge>, team: string, x: Score, f: Challenge -> int)
    requires forall c :: f(c) == multiset(RankScores(c.rank, team))[x]
    ensures multiset(ChallengesScores(challenges, team))[x] == Total(challenges, f)
    decreases |challenges|
  {
    if challenges != [] { ChallengesTotal(challenges[..|challenges| - 1], team, x, f); }
  }

  lemma ReorderedScores(p: Points, docs: seq<Doc>, docs': seq<Doc>,
                        challenges: seq<Challenge>, challenges': seq<Challenge>, team: string)
    requires multiset(docs) == multiset(docs') && multiset(challenges) == multiset(challenges')
    ensures multiset(Scores(p, docs, challenges, team)) == multiset(Scores(p, docs', challenges', team))
  {
    hide DocScores, RankScores, DocsScores, ChallengesScores;
    forall x
      ensures multiset(DocsScores(p, docs, team))[x] == multiset(DocsScores(p, docs', team))[x]
      ensures multiset(ChallengesScores(challenges, team))[x] == multiset(ChallengesScores(challenges', team))[x]
    {
      var f, g := (d: Doc) => multiset(DocScores(p, d, team))[x], (c: Challenge) => multiset(RankScores(c.rank, team))[x];
      DocsTotal(p, docs, team, x, f);
      DocsTotal(p, docs', team, x, f);
      SameTotal(docs, docs', f);
      ChallengesTotal(challenges, team, x, g);
      ChallengesTotal(challenges', team, x, g);
      SameTotal(challenges, challenges', g);
    }
  }

  lemma {:induction false} FlagTimesHave(docs: seq<Doc>, t: int)
    ensures t in FlagTimes(docs) <==> exists i :: 0 <= i < |docs| && t in DocTimes(docs[i])
  {
    hide DocTimes;
    if docs != [] {
      var n := |docs| - 1;
      FlagTimesHave(docs[..n], t);
      assert forall i :: 0 <= i < n ==> docs[..n][i] == docs[i];
    }
  }

  lemma {:induction false} ChallengeTimesHave(challenges: seq<Challenge>, t: int)
    ensures t in ChallengeTimes(challenges) <==> exists i :: 0 <= i < |challenges| && t in RankTimes(challenges[i].rank)
  {
    hide RankTimes;
    if challenges != [] {
      var n := |challenges| - 1;
      ChallengeTimesHave(challenges[..n], t);
      assert forall i :: 0 <= i < n ==> challenges[..n][i] == challenges[i];
    }
  }

  lemma {:induction false} RankTimesAre(ranks: seq<Rank>, t: int)
    ensures t in RankTimes(ranks) <==> exists i :: 0 <= i < |ranks| && ranks[i].time == t
  {
    if ranks != [] {
      var n := |ranks| - 1;
      RankTimesAre(ranks[..n], t);
      assert forall i :: 0 <= i < n ==> ranks[..n][i] == ranks[i];
    }
  }

  lemma {:induction false} CheckTimesAre(checks: seq<Check>, t: int)
    ensures t in CheckTimes(checks) <==> exists i :: 0 <= i < |checks| && checks[i].time == t
  {
    if checks != [] {
      var n := |checks| - 1;
      CheckTimesAre(checks[..n], t);
      assert forall i :: 0 <= i < n ==> checks[..n][i] == checks[i];
    }
  }

  lemma {:induction false} CaptureTimesAre(captures: seq<Capture>, t: int)
    ensures t in CaptureTimes(captures) <==> exists i :: 0 <= i < |captures| && captures[i].time == t
  {
    if captures != [] {
      var n := |captures| - 1;
      CaptureTimesAre(captures[..n], t);
      assert forall i :: 0 <= i < n ==> captures[..n][i] == captures[i];
    }
  }

  /** The flag document has this time in one of its fields. */
  ghost predicate FlagHasTime(d: Doc, t: int) {
    || d.time == t
    || (exists i :: 0 <= i < |d.checks| && d.checks[i].time == t)
    || (exists i :: 0 <= i < |d.captures| && d.captures[i].time == t)
  }

  ghost predicate RankHasTime(challenge: Challenge, t: int) {
    exists i :: 0 <= i < |challenge.rank| && challenge.rank[i].time == t
  }

  /** The time bounds range over the times in the documents' fields and over no others. */
  lemma TimesAre(docs: seq<Doc>, challenges: seq<Challenge>, t: int)
    ensures t in Times(docs, challenges) <==>
            (exists i :: 0 <= i < |docs| && FlagHasTime(docs[i], t))
            || (exists i :: 0 <= i < |challenges| && RankHasTime(challenges[i], t))
  {
    FlagTimesHave(docs, t);
    ChallengeTimesHave(challenges, t);
    forall i | 0 <= i < |docs| ensures t in DocTimes(docs[i]) <==> FlagHasTime(docs[i], t) {
      CheckTimesAre(docs[i].checks, t);
      CaptureTimesAre(docs[i].captures, t);
    }
    forall i | 0 <= i < |challenges| ensures t in RankTimes(challenges[i].rank) <==> RankHasTime(challenges[i], t) {
      RankTimesAre(challenges[i].rank, t);
    }
  }

  lemma TimesMove(docs: seq<Doc>, docs': seq<Doc>, challenges: seq<Challenge>, challenges': seq<Challenge>)
    requires multiset(docs) == multiset(docs') && multiset(challenges) == multiset(challenges')
    ensures Times(docs, challenges) <= Times(docs', challenges')
  {
    hide FlagTimes, ChallengeTimes, DocTimes, RankTimes;
    forall t | t in FlagTimes(docs) ensures t in FlagTimes(docs') {
      FlagTimesHave(docs, t);
      FlagTimesHave(docs', t);
      var i :| 0 <= i < |docs| && t in DocTimes(docs[i]);
      assert docs[i] in multiset(docs');
      var j :| 0 <= j < |docs'| && docs'[j] == docs[i];
    }
    forall t | t in ChallengeTimes(challenges) ensures t in ChallengeTimes(challenges') {
      ChallengeTimesHave(challenges, t);
      ChallengeTimesHave(challenges', t);
      var i :| 0 <= i < |challenges| && t in RankTimes(challenges[i].rank);
      assert challenges[i] in multiset(challenges');
      var j :| 0 <= j < |challenges'| && challenges'[j] == challenges[i];
    }
  }

  lemma SameBounds(low: real, high: real, low': real, high': real, times: set<int>)
    requires IsLow(low, times) && IsHigh(high, times) && IsLow(low', times) && IsHigh(high', times)
    ensures low == low' && high == high'
  {
  }

  /** Two reports over the same documents, both kinds read in any order, plot the same line for a team. */
  lemma SameLine(p: Points, docs: seq<Doc>, docs': seq<Doc>,
                 challenges: seq<Challenge>, challenges': seq<Challenge>, team: string,
                 low: real, high: real, series: Series, low': real, high': real, series': Series)
    requires multiset(docs) == multiset(docs') && multiset(challenges) == multiset(challenges')
    requires IsLow(low, Times(docs, challenges)) && IsHigh(high, Times(docs, challenges))
    requires IsLow(low', Times(docs', challenges')) && IsHigh(high', Times(docs', challenges'))
    requires IsSeries(series, low, high, Scores(p, docs, challenges, team))
    requires IsSeries(series', low', high', Scores(p, docs', challenges', team))
    ensures series == series'
  {
    hide Scores, Times, IsCurve, Sum, IsLow, IsHigh;
    var scores, scores' := Scores(p, docs, challenges, team), Scores(p, docs', challenges', team);
    ReorderedScores(p, docs, docs', challenges, challenges', team);
    TimesMove(docs, docs', challenges, challenges');
    TimesMove(docs', docs, challenges', challenges);
    SameCurve(series'.corners, scores', scores);
    CurveUnique(series.corners, series'.corners, scores);
    SameSums(scores, scores', 0);
    assert Times(docs, challenges) == Times(docs', challenges');
    SameBounds(low, high, low', high', Times(docs, challenges));
  }

  // ----- the generated report

  /** The scoreboard part of `DoGenerate`: all flag documents, then all challenge documents. */
  method Generate(p: Points, docs: seq<Doc>, challenges: seq<Challenge>) returns (scores: ScoreOverTime)
    ensures fresh(scores) && scores.Valid() && scores.points == p
    ensures scores.docs == docs && scores.challenges == challenges
  {
    hide ScoreOverTime.Valid;
    scores := new ScoreOverTime(p);
    var n := 0;
    while n < |docs|
      invariant n <= |docs| && fresh(scores) && scores.Valid()
      invariant scores.docs == docs[..n] && scores.challenges == []
    {
      scores.Flag(docs[n]);
      n := n + 1;
    }
    n := 0;
    while n < |challenges|
      invariant n <= |challenges| && fresh(scores) && scores.Valid()
      invariant scores.docs == docs && scores.challenges == challenges[..n]
    {
      scores.Challenge(challenges[n]);
      n := n + 1;
    }
  }

  lemma {:induction false} NotCapturing(captures: seq<Capture>, team: string)
    requires team !in CaptureTeams(captures)
    ensures CapturesBy(captures, team) == 0
  {
    if captures != [] { NotCapturing(captures[..|captures| - 1], team); }
  }

  lemma {:induction false} NotRanked(ranks: seq<Rank>, team: string)
    requires team !in RankTeams(ranks)
    ensures RankPoints(ranks, team) == 0
  {
    if ranks != [] { NotRanked(ranks[..|ranks| - 1], team); }
  }

  /** A team no document mentions has earned nothing. */
  lemma {:induction false} Unmentioned(p: Points, docs: seq<Doc>, challenges: seq<Challenge>, team: string)
    requires team !in Teams(docs, challenges)
    ensures Worth(p, docs, challenges, team) == 0
    decreases |docs|, |challenges|
  {
    if docs != [] {
      Unmentioned(p, docs[..|docs| - 1], challenges, team);
      NotCapturing(docs[|docs| - 1].captures, team);
    } else if challenges != [] {
      Unmentioned(p, [], challenges[..|challenges| - 1], team);
      NotRanked(challenges[|challenges| - 1].rank, team);
    }
  }

  /**
   The main result of the game accounting: after any run, the report generated from the stored
   documents, in whatever order they are read, gives every team the points the ledger booked for it.
   */
  method ReportIsLedger(c: Steps.Config, d: Steps.Discipline, p: Points, ghost es: seq<Steps.Event>,
                        docs: seq<Doc>, challenges: seq<Challenge>) returns (table: map<string, Row>)
    requires Steps.Run(c, d, Steps.INITIAL, es)
    requires Ledger.Lists(docs, Steps.After(c, d, Steps.INITIAL, es).db)
    requires Ledger.ListsChallenges(challenges, Steps.After(c, d, Steps.INITIAL, es).challenges)
    ensures forall team :: RowAt(table, team).points
                        == Ledger.Balance(Ledger.Replay(p, Steps.After(c, d, Steps.INITIAL, es).trace), team)
  {
    var scores := Generate(p, docs, challenges);
    table := scores.Table();
    forall team
      ensures RowAt(table, team).points
           == Ledger.Balance(Ledger.Replay(p, Steps.After(c, d, Steps.INITIAL, es).trace), team)
    {
      Ledger.WorthIsLedger(c, d, p, es, docs, challenges, team);
      if team !in table {
        Unmentioned(p, docs, challenges, team);
      }
    }
  }
}
