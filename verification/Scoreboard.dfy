/** The scoreboard's score_over_time object, fed with documents one at a time. */
module Scoreboard {
  import opened GameTypes
  import opened ScoreCurve

  const MAX_VALUE: real := 1.7976931348623157e308
  const MIN_VALUE: real := 5.0e-324

  datatype Row = Row(deliver: int, capture: int, defend: int, check: int, challenge: int, points: int)

  const EMPTY_ROW := Row(0, 0, 0, 0, 0, 0)

  function RowAt(table: map<string, Row>, team: string): Row {
    if team in table then table[team] else EMPTY_ROW
  }

  function ScoresAt(data: map<string, seq<Score>>, team: string): seq<Score> {
    if team in data then data[team] else []
  }

  // ----- what one document adds

  function CheckScores(p: Points, checks: seq<Check>): seq<Score> {
    if checks == [] then []
    else var last := checks[|checks| - 1];
         CheckScores(p, checks[..|checks| - 1]) + if last.result then [Score(last.time, p.check)] else []
  }

  function CaptureScores(p: Points, captures: seq<Capture>, team: string): seq<Score> {
    if captures == [] then []
    else var last := captures[|captures| - 1];
         CaptureScores(p, captures[..|captures| - 1], team)
         + if last.team == team then [Score(last.time, p.capture)] else []
  }

  function PlantScores(p: Points, doc: Doc): seq<Score> {
    if PlantPoints(p, doc) > 0 then [Score(doc.time, PlantPoints(p, doc))] else []
  }

  function DocScores(p: Points, doc: Doc, team: string): seq<Score> {
    (if doc.team == team then PlantScores(p, doc) + CheckScores(p, doc.checks) else [])
    + CaptureScores(p, doc.captures, team)
  }

  function RankScores(ranks: seq<Rank>, team: string): seq<Score> {
    if ranks == [] then []
    else var last := ranks[|ranks| - 1];
         RankScores(ranks[..|ranks| - 1], team) + if last.team == team then [Score(last.time, last.points)] else []
  }

  function DocsScores(p: Points, docs: seq<Doc>, team: string): seq<Score> {
    if docs == [] then [] else DocsScores(p, docs[..|docs| - 1], team) + DocScores(p, docs[|docs| - 1], team)
  }

  function ChallengesScores(challenges: seq<Challenge>, team: string): seq<Score> {
    if challenges == [] then []
    else ChallengesScores(challenges[..|challenges| - 1], team) + RankScores(challenges[|challenges| - 1].rank, team)
  }

  /** All point events of a team. */
  function Scores(p: Points, docs: seq<Doc>, challenges: seq<Challenge>, team: string): seq<Score> {
    DocsScores(p, docs, team) + ChallengesScores(challenges, team)
  }

  function CaptureTimes(captures: seq<Capture>): set<int> {
    if captures == [] then {}
    else CaptureTimes(captures[..|captures| - 1]) + {captures[|captures| - 1].time}
  }

  function CheckTimes(checks: seq<Check>): set<int> {
    if checks == [] then {} else CheckTimes(checks[..|checks| - 1]) + {checks[|checks| - 1].time}
  }

  function RankTeams(ranks: seq<Rank>): set<string> {
    if ranks == [] then {} else RankTeams(ranks[..|ranks| - 1]) + {ranks[|ranks| - 1].team}
  }

  function RankTimes(ranks: seq<Rank>): set<int> {
    if ranks == [] then {} else RankTimes(ranks[..|ranks| - 1]) + {ranks[|ranks| - 1].time}
  }

  function ChallengeTeams(challenges: seq<Challenge>): set<string> {
    if challenges == [] then {}
    else ChallengeTeams(challenges[..|challenges| - 1]) + RankTeams(challenges[|challenges| - 1].rank)
  }

  /** The teams the documents mention. */
  function Teams(docs: seq<Doc>, challenges: seq<Challenge>): set<string> {
    FlagTeams(docs) + ChallengeTeams(challenges)
  }

  function DocTimes(doc: Doc): set<int> {
    {doc.time} + CheckTimes(doc.checks) + CaptureTimes(doc.captures)
  }

  function FlagTimes(docs: seq<Doc>): set<int> {
    if docs == [] then {} else FlagTimes(docs[..|docs| - 1]) + DocTimes(docs[|docs| - 1])
  }

  function ChallengeTimes(challenges: seq<Challenge>): set<int> {
    if challenges == [] then {}
    else ChallengeTimes(challenges[..|challenges| - 1]) + RankTimes(challenges[|challenges| - 1].rank)
  }

  /** The points in time the documents mention. */
  function Times(docs: seq<Doc>, challenges: seq<Challenge>): set<int> {
    FlagTimes(docs) + ChallengeTimes(challenges)
  }

  lemma TeamsAndTimesAddChallenge(docs: seq<Doc>, challenges: seq<Challenge>, ch: Challenge)
    ensures Teams(docs, challenges + [ch]) == Teams(docs, challenges) + RankTeams(ch.rank)
    ensures Times(docs, challenges + [ch]) == Times(docs, challenges) + RankTimes(ch.rank)
  {
    hide RankTeams, RankTimes, FlagTeams, FlagTimes;
    assert (challenges + [ch])[..|challenges|] == challenges;
  }

  function Delivered(docs: seq<Doc>, team: string): nat {
    if docs == [] then 0
    else var d := docs[|docs| - 1];
         Delivered(docs[..|docs| - 1], team) + if d.team == team && d.delivered then 1 else 0
  }

  function Defended(docs: seq<Doc>, team: string): nat {
    if docs == [] then 0
    else var d := docs[|docs| - 1];
         Defended(docs[..|docs| - 1], team) + if d.team == team && d.delivered && d.captures == [] then 1 else 0
  }

  function Checked(docs: seq<Doc>, team: string): nat {
    if docs == [] then 0
    else var d := docs[|docs| - 1];
         Checked(docs[..|docs| - 1], team) + if d.team == team then GoodChecks(d.checks) else 0
  }

  /** The counters of a team's table row. */
  function Counters(docs: seq<Doc>, challenges: seq<Challenge>, team: string): Row {
    Row(Delivered(docs, team), StolenBy(docs, team), Defended(docs, team), Checked(docs, team),
        ChallengesPoints(challenges, team), 0)
  }

  // ----- how one team's row and list move

  predicate CaptureGain(p: Points, captures: seq<Capture>, team: string,
                        row: Row, list: seq<Score>, row': Row, list': seq<Score>)
  {
    && row' == row.(capture := row.capture + CapturesBy(captures, team))
    && list' == list + CaptureScores(p, captures, team)
  }

  predicate PlantGain(p: Points, flag: Doc, team: string, row: Row, list: seq<Score>, row': Row, list': seq<Score>) {
    if team != flag.team then row' == row && list' == list
    else
      && row' == row.(deliver := row.deliver + (if flag.delivered then 1 else 0),
                      defend := row.defend + if flag.delivered && flag.captures == [] then 1 else 0)
      && list' == list + PlantScores(p, flag)
  }

  predicate CheckGain(p: Points, flag: Doc, checks: seq<Check>, team: string,
                      row: Row, list: seq<Score>, row': Row, list': seq<Score>)
  {
    if team != flag.team then row' == row && list' == list
    else row' == row.(check := row.check + GoodChecks(checks)) && list' == list + CheckScores(p, checks)
  }

  predicate RankGain(ranks: seq<Rank>, team: string, row: Row, list: seq<Score>, row': Row, list': seq<Score>) {
    && row' == row.(challenge := row.challenge + RankPoints(ranks, team))
    && list' == list + RankScores(ranks, team)
  }

  /** Row and list hold exactly what the documents so far say about the team. */
  ghost predicate Holds(p: Points, docs: seq<Doc>, challenges: seq<Challenge>, team: string, row: Row, list: seq<Score>) {
    && row.(points := 0) == Counters(docs, challenges, team)
    && multiset(list) == multiset(Scores(p, docs, challenges, team))
  }

  lemma {:induction false} OneMoreCapture(p: Points, captures: seq<Capture>, n: nat, team: string,
                       row: Row, list: seq<Score>, row': Row, list': seq<Score>, row'': Row, list'': seq<Score>)
    requires n < |captures|
    requires CaptureGain(p, captures[..n], team, row, list, row', list')
    requires CaptureGain(p, [captures[n]], team, row', list', row'', list'')
    ensures CaptureGain(p, captures[..n + 1], team, row, list, row'', list'')
  {
    assert captures[..n + 1][..n] == captures[..n];
    SingleCapture(p, captures[n], team);
  }

  lemma NoChecks(p: Points, none: seq<Check>)
    requires none == []
    ensures GoodChecks(none) == 0 && CheckScores(p, none) == [] && CheckTimes(none) == {}
  {
  }

  lemma CheckNext(p: Points, checks: seq<Check>, n: nat)
    requires n < |checks|
    ensures GoodChecks(checks[..n + 1]) == GoodChecks(checks[..n]) + if checks[n].result then 1 else 0
    ensures CheckScores(p, checks[..n + 1]) ==
            CheckScores(p, checks[..n]) + if checks[n].result then [Score(checks[n].time, p.check)] else []
    ensures CheckTimes(checks[..n + 1]) == CheckTimes(checks[..n]) + {checks[n].time}
  {
    assert checks[..n + 1][..n] == checks[..n];
  }

  lemma {:induction false} SingleCapture(p: Points, capture: Capture, team: string)
    ensures CapturesBy([capture], team) == if capture.team == team then 1 else 0
    ensures CaptureScores(p, [capture], team) == if capture.team == team then [Score(capture.time, p.capture)] else []
  {
    assert [capture][..0] == [];
    assert CapturesBy([], team) == 0 && CaptureScores(p, [], team) == [];
  }

  lemma {:induction false} WholeDoc(p: Points, docs: seq<Doc>, challenges: seq<Challenge>, flag: Doc, team: string,
                                    r0: Row, l0: seq<Score>, r1: Row, l1: seq<Score>,
                                    r2: Row, l2: seq<Score>, r3: Row, l3: seq<Score>)
    requires Holds(p, docs, challenges, team, r0, l0)
    requires PlantGain(p, flag, team, r0, l0, r1, l1)
    requires CheckGain(p, flag, flag.checks, team, r1, l1, r2, l2)
    requires CaptureGain(p, flag.captures, team, r2, l2, r3, l3)
    ensures Holds(p, docs + [flag], challenges, team, r3, l3)
  {
    WholeRow(p, docs, challenges, flag, team, r0, l0, r1, l1, r2, l2, r3, l3);
    WholeList(p, flag, team, l0, l1, l2, l3, r0, r1, r2, r3);
    ScoresAdd(p, docs, challenges, flag, team);
    assert multiset(l3) == multiset(l0) + multiset(DocScores(p, flag, team));
  }

  lemma {:induction false} WholeRow(p: Points, docs: seq<Doc>, challenges: seq<Challenge>, flag: Doc, team: string,
                                    r0: Row, l0: seq<Score>, r1: Row, l1: seq<Score>,
                                    r2: Row, l2: seq<Score>, r3: Row, l3: seq<Score>)
    requires r0.(points := 0) == Counters(docs, challenges, team)
    requires PlantGain(p, flag, team, r0, l0, r1, l1)
    requires CheckGain(p, flag, flag.checks, team, r1, l1, r2, l2)
    requires CaptureGain(p, flag.captures, team, r2, l2, r3, l3)
    ensures r3.(points := 0) == Counters(docs + [flag], challenges, team)
  {
    CountersAdd(docs, challenges, flag, team);
  }

  lemma {:induction false} WholeList(p: Points, flag: Doc, team: string,
                                     l0: seq<Score>, l1: seq<Score>, l2: seq<Score>, l3: seq<Score>,
                                     r0: Row, r1: Row, r2: Row, r3: Row)
    requires PlantGain(p, flag, team, r0, l0, r1, l1)
    requires CheckGain(p, flag, flag.checks, team, r1, l1, r2, l2)
    requires CaptureGain(p, flag.captures, team, r2, l2, r3, l3)
    ensures l3 == l0 + DocScores(p, flag, team)
  {
    if team == flag.team {
      assert l3 == l0 + (PlantScores(p, flag) + CheckScores(p, flag.checks) + CaptureScores(p, flag.captures, team));
    } else {
      assert l3 == l0 + ([] + CaptureScores(p, flag.captures, team));
    }
  }

  type Table = map<string, Row>
  type Lists = map<string, seq<Score>>

  ghost predicate HoldsAll(p: Points, docs: seq<Doc>, challenges: seq<Challenge>, t: Table, d: Lists) {
    forall team {:trigger Holds(p, docs, challenges, team, RowAt(t, team), ScoresAt(d, team))} ::
      Holds(p, docs, challenges, team, RowAt(t, team), ScoresAt(d, team))
  }

  ghost predicate PlantGains(p: Points, flag: Doc, t: Table, d: Lists, t': Table, d': Lists) {
    forall team {:trigger PlantGain(p, flag, team, RowAt(t, team), ScoresAt(d, team), RowAt(t', team), ScoresAt(d', team))} ::
      PlantGain(p, flag, team, RowAt(t, team), ScoresAt(d, team), RowAt(t', team), ScoresAt(d', team))
  }

  ghost predicate CheckGains(p: Points, flag: Doc, t: Table, d: Lists, t': Table, d': Lists) {
    forall team {:trigger CheckGain(p, flag, flag.checks, team, RowAt(t, team), ScoresAt(d, team), RowAt(t', team), ScoresAt(d', team))} ::
      CheckGain(p, flag, flag.checks, team, RowAt(t, team), ScoresAt(d, team), RowAt(t', team), ScoresAt(d', team))
  }

  ghost predicate CaptureGains(p: Points, captures: seq<Capture>, t: Table, d: Lists, t': Table, d': Lists) {
    forall team {:trigger CaptureGain(p, captures, team, RowAt(t, team), ScoresAt(d, team), RowAt(t', team), ScoresAt(d', team))} ::
      CaptureGain(p, captures, team, RowAt(t, team), ScoresAt(d, team), RowAt(t', team), ScoresAt(d', team))
  }

  ghost predicate RankGains(ranks: seq<Rank>, t: Table, d: Lists, t': Table, d': Lists) {
    forall team {:trigger RankGain(ranks, team, RowAt(t, team), ScoresAt(d, team), RowAt(t', team), ScoresAt(d', team))} ::
      RankGain(ranks, team, RowAt(t, team), ScoresAt(d, team), RowAt(t', team), ScoresAt(d', team))
  }

  /** Meeting a team changes nobody's row or list. */
  ghost predicate Met(t: Table, d: Lists, team: string, t': Table, d': Lists) {
    && t' == (if team in t then t else t[team := EMPTY_ROW])
    && d' == if team in d then d else d[team := []]
  }

  lemma {:induction false} AllGain(p: Points, docs: seq<Doc>, challenges: seq<Challenge>, flag: Doc,
                t: Table, d: Lists, t0: Table, d0: Lists, t1: Table, d1: Lists, t2: Table, d2: Lists, t3: Table, d3: Lists)
    requires HoldsAll(p, docs, challenges, t, d) && Met(t, d, flag.team, t0, d0)
    requires PlantGains(p, flag, t0, d0, t1, d1) && CheckGains(p, flag, t1, d1, t2, d2)
    requires CaptureGains(p, flag.captures, t2, d2, t3, d3)
    ensures HoldsAll(p, docs + [flag], challenges, t3, d3)
  {
    forall team ensures Holds(p, docs + [flag], challenges, team, RowAt(t3, team), ScoresAt(d3, team)) {
      assert Holds(p, docs, challenges, team, RowAt(t, team), ScoresAt(d, team));
      assert RowAt(t0, team) == RowAt(t, team) && ScoresAt(d0, team) == ScoresAt(d, team);
      WholeDoc(p, docs, challenges, flag, team, RowAt(t0, team), ScoresAt(d0, team), RowAt(t1, team), ScoresAt(d1, team),
               RowAt(t2, team), ScoresAt(d2, team), RowAt(t3, team), ScoresAt(d3, team));
    }
  }

  lemma {:induction false} CountersAdd(docs: seq<Doc>, challenges: seq<Challenge>, flag: Doc, team: string)
    ensures var was := Counters(docs, challenges, team);
            var now := was.(capture := was.capture + CapturesBy(flag.captures, team));
            Counters(docs + [flag], challenges, team) ==
              if flag.team != team then now
              else now.(deliver := was.deliver + (if flag.delivered then 1 else 0),
                        defend := was.defend + (if flag.delivered && flag.captures == [] then 1 else 0),
                        check := was.check + GoodChecks(flag.checks))
  {
    assert (docs + [flag])[..|docs|] == docs;
  }

  lemma {:induction false} ScoresAdd(p: Points, docs: seq<Doc>, challenges: seq<Challenge>, flag: Doc, team: string)
    ensures multiset(Scores(p, docs + [flag], challenges, team))
         == multiset(Scores(p, docs, challenges, team)) + multiset(DocScores(p, flag, team))
  {
    assert (docs + [flag])[..|docs|] == docs;
  }

  lemma {:induction false} TeamsAndTimesAddDoc(docs: seq<Doc>, challenges: seq<Challenge>, flag: Doc)
    ensures Teams(docs + [flag], challenges) == Teams(docs, challenges) + {flag.team} + CaptureTeams(flag.captures)
    ensures Times(docs + [flag], challenges)
         == Times(docs, challenges) + {flag.time} + CheckTimes(flag.checks) + CaptureTimes(flag.captures)
  {
    hide CaptureTeams, CheckTimes, CaptureTimes, ChallengeTeams, ChallengeTimes;
    assert (docs + [flag])[..|docs|] == docs;
  }

  ghost predicate IsLow(low: real, times: set<int>) {
    && low <= MAX_VALUE
    && (forall t :: t in times ==> low <= t as real)
    && (low == MAX_VALUE || exists t :: t in times && low == t as real)
  }

  ghost predicate IsHigh(high: real, times: set<int>) {
    && MIN_VALUE <= high
    && (forall t :: t in times ==> t as real <= high)
    && (high == MIN_VALUE || exists t :: t in times && high == t as real)
  }

  function Min(a: real, b: real): real { if a <= b then a else b }
  function Max(a: real, b: real): real { if a >= b then a else b }

  lemma {:induction false} OneMoreRank(ranks: seq<Rank>, n: nat, t: Table, d: Lists,
                                       t': Table, d': Lists, t'': Table, d'': Lists)
    requires n < |ranks|
    requires RankGains(ranks[..n], t, d, t', d') && RankGains([ranks[n]], t', d', t'', d'')
    ensures RankGains(ranks[..n + 1], t, d, t'', d'')
  {
    forall team ensures RankGain(ranks[..n + 1], team, RowAt(t, team), ScoresAt(d, team), RowAt(t'', team), ScoresAt(d'', team)) {
      assert RankGain(ranks[..n], team, RowAt(t, team), ScoresAt(d, team), RowAt(t', team), ScoresAt(d', team));
      assert RankGain([ranks[n]], team, RowAt(t', team), ScoresAt(d', team), RowAt(t'', team), ScoresAt(d'', team));
      RankStep(ranks, n, team, RowAt(t, team), ScoresAt(d, team), RowAt(t', team), ScoresAt(d', team),
               RowAt(t'', team), ScoresAt(d'', team));
    }
  }

  lemma {:induction false} RankStep(ranks: seq<Rank>, n: nat, team: string,
                       row: Row, list: seq<Score>, row': Row, list': seq<Score>, row'': Row, list'': seq<Score>)
    requires n < |ranks|
    requires RankGain(ranks[..n], team, row, list, row', list')
    requires RankGain([ranks[n]], team, row', list', row'', list'')
    ensures RankGain(ranks[..n + 1], team, row, list, row'', list'')
  {
    assert ranks[..n + 1][..n] == ranks[..n];
    SingleRank(ranks[n], team);
  }

  lemma {:induction false} SingleRank(rank: Rank, team: string)
    ensures RankPoints([rank], team) == if rank.team == team then rank.points else 0
    ensures RankScores([rank], team) == if rank.team == team then [Score(rank.time, rank.points)] else []
  {
    assert [rank][..0] == [];
    assert RankPoints([], team) == 0 && RankScores([], team) == [];
  }

  lemma {:induction false} AllRanked(p: Points, docs: seq<Doc>, challenges: seq<Challenge>, challenge: Challenge,
                                     t: Table, d: Lists, t': Table, d': Lists)
    requires HoldsAll(p, docs, challenges, t, d) && RankGains(challenge.rank, t, d, t', d')
    ensures HoldsAll(p, docs, challenges + [challenge], t', d')
  {
    forall team ensures Holds(p, docs, challenges + [challenge], team, RowAt(t', team), ScoresAt(d', team)) {
      assert Holds(p, docs, challenges, team, RowAt(t, team), ScoresAt(d, team));
      assert RankGain(challenge.rank, team, RowAt(t, team), ScoresAt(d, team), RowAt(t', team), ScoresAt(d', team));
      WholeChallenge(p, docs, challenges, challenge, team, RowAt(t, team), ScoresAt(d, team), RowAt(t', team), ScoresAt(d', team));
    }
  }

  lemma {:induction false} WholeChallenge(p: Points, docs: seq<Doc>, challenges: seq<Challenge>, challenge: Challenge,
                                          team: string, row: Row, list: seq<Score>, row': Row, list': seq<Score>)
    requires Holds(p, docs, challenges, team, row, list)
    requires RankGain(challenge.rank, team, row, list, row', list')
    ensures Holds(p, docs, challenges + [challenge], team, row', list')
  {
    ChallengeAdds(p, docs, challenges, challenge, team);
    assert multiset(list') == multiset(list) + multiset(RankScores(challenge.rank, team));
  }

  lemma {:induction false} ChallengeAdds(p: Points, docs: seq<Doc>, challenges: seq<Challenge>, challenge: Challenge, team: string)
    ensures var was := Counters(docs, challenges, team);
            Counters(docs, challenges + [challenge], team)
            == was.(challenge := was.challenge + RankPoints(challenge.rank, team))
    ensures Scores(p, docs, challenges + [challenge], team)
         == Scores(p, docs, challenges, team) + RankScores(challenge.rank, team)
  {
    assert (challenges + [challenge])[..|challenges|] == challenges;
    assert Scores(p, docs, challenges + [challenge], team)
        == DocsScores(p, docs, team) + (ChallengesScores(challenges, team) + RankScores(challenge.rank, team));
  }

  // ----- the plotted line

  /** One plotted line: the corners between two end points. */
  datatype Series = Series(low: (real, int), corners: seq<Corner>, high: (real, int))

  ghost predicate IsSeries(series: Series, low: real, high: real, scores: seq<Score>) {
    && series.low == (low, 0)
    && IsCurve(series.corners, scores)
    && series.high == (high, Sum(scores))
  }

  class ScoreOverTime {
    const points: Points
    var highestTimestamp: real
    var lowestTimestamp: real
    var data: map<string, seq<Score>>
    var table: map<string, Row>
    ghost var docs: seq<Doc>              // the documents fed so far
    ghost var challenges: seq<Challenge>
    ghost var times: set<int>             // the points in time noted so far

    ghost predicate Valid()
      reads this
    {
      && table.Keys == data.Keys == Teams(docs, challenges)
      && HoldsAll(points, docs, challenges, table, data)
      && times == Times(docs, challenges)
      && Bounded()
    }

    ghost predicate Bounded()
      reads this`lowestTimestamp, this`highestTimestamp, this`times
    {
      IsLow(lowestTimestamp, times) && IsHigh(highestTimestamp, times)
    }

    constructor (points: Points)
      ensures Valid() && this.points == points && docs == [] && challenges == []
    {
      this.points := points;
      highestTimestamp, lowestTimestamp := MIN_VALUE, MAX_VALUE;
      data, table := map[], map[];
      docs, challenges, times := [], [], {};
    }

    /** The `=== undefined` tests before a team's row and list are used. */
    method Meet(team: string)
      modifies this`data, this`table
      ensures Met(old(table), old(data), team, table, data)
      ensures table.Keys == old(table.Keys) + {team} && data.Keys == old(data.Keys) + {team}
    {
      if team !in table {
        table := table[team := EMPTY_ROW];
      }
      if team !in data {
        data := data[team := []];
      }
    }

    method Note(time: int)
      requires Bounded()
      modifies this`lowestTimestamp, this`highestTimestamp, this`times
      ensures Bounded() && times == old(times) + {time}
    {
      lowestTimestamp := Min(lowestTimestamp, time as real);
      highestTimestamp := Max(highestTimestamp, time as real);
      times := times + {time};
    }

    /** The delivery and defence points of a document. */
    method PlantPart(flag: Doc)
      requires flag.team in table && flag.team in data
      modifies this`data, this`table
      ensures table.Keys == old(table.Keys) && data.Keys == old(data.Keys)
      ensures PlantGains(points, flag, old(table), old(data), table, data)
    {
      var p := 0;
      if flag.delivered {
        table := table[flag.team := table[flag.team].(deliver := table[flag.team].deliver + 1)];
        p := p + points.deliver;
        if |flag.captures| == 0 {
          p := p + points.defend;
          table := table[flag.team := table[flag.team].(defend := table[flag.team].defend + 1)];
        }
      }
      if p > 0 {
        data := data[flag.team := data[flag.team] + [Score(flag.time, p)]];
      }
    }

    method ChecksPart(flag: Doc)
      requires flag.team in table && flag.team in data && Bounded()
      modifies this`data, this`table, this`lowestTimestamp, this`highestTimestamp, this`times
      ensures table.Keys == old(table.Keys) && data.Keys == old(data.Keys)
      ensures Bounded() && times == old(times) + CheckTimes(flag.checks)
      ensures CheckGains(points, flag, old(table), old(data), table, data)
    {
      hide Bounded, GoodChecks, CheckScores, CheckTimes;
      var n := 0;
      NoChecks(points, flag.checks[..0]);
      while n < |flag.checks|
        invariant n <= |flag.checks|
        invariant table.Keys == old(table.Keys) && data.Keys == old(data.Keys)
        invariant Bounded() && times == old(times) + CheckTimes(flag.checks[..n])
        invariant table == old(table)[flag.team :=
                    old(table[flag.team]).(check := old(table[flag.team]).check + GoodChecks(flag.checks[..n]))]
        invariant data[flag.team] == old(data[flag.team]) + CheckScores(points, flag.checks[..n])
        invariant forall team :: team in data && team != flag.team ==> data[team] == old(data)[team]
      {
        var check := flag.checks[n];
        CheckNext(points, flag.checks, n);
        Note(check.time);
        if check.result {
          table := table[flag.team := table[flag.team].(check := table[flag.team].check + 1)];
          data := data[flag.team := data[flag.team] + [Score(check.time, points.check)]];
        }
        n := n + 1;
      }
      assert flag.checks[..n] == flag.checks;
    }

    method OneCapture(capture: Capture)
      requires Bounded()
      modifies this`data, this`table, this`lowestTimestamp, this`highestTimestamp, this`times
      ensures table.Keys == old(table.Keys) + {capture.team} && data.Keys == old(data.Keys) + {capture.team}
      ensures Bounded() && times == old(times) + {capture.time}
      ensures CaptureGains(points, [capture], old(table), old(data), table, data)
    {
      hide Bounded, CapturesBy, CaptureScores;
      Note(capture.time);
      Meet(capture.team);
      table := table[capture.team := table[capture.team].(capture := table[capture.team].capture + 1)];
      data := data[capture.team := data[capture.team] + [Score(capture.time, points.capture)]];
      forall team { SingleCapture(points, capture, team); }
    }

    method CapturesPart(flag: Doc)
      requires Bounded()
      modifies this`data, this`table, this`lowestTimestamp, this`highestTimestamp, this`times
      ensures table.Keys == old(table.Keys) + CaptureTeams(flag.captures)
      ensures data.Keys == old(data.Keys) + CaptureTeams(flag.captures)
      ensures Bounded() && times == old(times) + CaptureTimes(flag.captures)
      ensures CaptureGains(points, flag.captures, old(table), old(data), table, data)
    {
      var n := 0;
      while n < |flag.captures|
        invariant n <= |flag.captures|
        invariant table.Keys == old(table.Keys) + CaptureTeams(flag.captures[..n])
        invariant data.Keys == old(data.Keys) + CaptureTeams(flag.captures[..n])
        invariant Bounded() && times == old(times) + CaptureTimes(flag.captures[..n])
        invariant CaptureGains(points, flag.captures[..n], old(table), old(data), table, data)
      {
        assert flag.captures[..n + 1][..n] == flag.captures[..n];
        ghost var t, d := table, data;
        OneCapture(flag.captures[n]);
        forall team ensures CaptureGain(points, flag.captures[..n + 1], team, RowAt(old(table), team),
                                        ScoresAt(old(data), team), RowAt(table, team), ScoresAt(data, team))
        {
          OneMoreCapture(points, flag.captures, n, team, RowAt(old(table), team), ScoresAt(old(data), team),
                         RowAt(t, team), ScoresAt(d, team), RowAt(table, team), ScoresAt(data, team));
        }
        n := n + 1;
      }
      assert flag.captures[..n] == flag.captures;
    }

    /** Everything one flag document adds. */
    method CountDoc(flag: Doc)
      requires Bounded() && HoldsAll(points, docs, challenges, table, data)
      modifies this`data, this`table, this`lowestTimestamp, this`highestTimestamp, this`times
      ensures Bounded() && HoldsAll(points, docs + [flag], challenges, table, data)
      ensures table.Keys == old(table.Keys) + {flag.team} + CaptureTeams(flag.captures)
      ensures data.Keys == old(data.Keys) + {flag.team} + CaptureTeams(flag.captures)
      ensures times == old(times) + {flag.time} + CheckTimes(flag.checks) + CaptureTimes(flag.captures)
    {
      hide Bounded, HoldsAll, Met, PlantGains, CheckGains, CaptureGains, CheckTimes, CaptureTimes, CaptureTeams;
      Note(flag.time);
      Meet(flag.team);
      ghost var t0, d0 := table, data;
      PlantPart(flag);
      ghost var t1, d1 := table, data;
      ChecksPart(flag);
      ghost var t2, d2 := table, data;
      CapturesPart(flag);
      AllGain(points, docs, challenges, flag, old(table), old(data), t0, d0, t1, d1, t2, d2, table, data);
    }

    method Flag(flag: Doc)
      requires Valid()
      modifies this
      ensures Valid() && docs == old(docs) + [flag] && challenges == old(challenges)
    {
      CountDoc(flag);
      TeamsAndTimesAddDoc(docs, challenges, flag);
      docs := docs + [flag];
    }

    method OneRank(rank: Rank)
      requires Bounded()
      modifies this`data, this`table, this`lowestTimestamp, this`highestTimestamp, this`times
      ensures table.Keys == old(table.Keys) + {rank.team} && data.Keys == old(data.Keys) + {rank.team}
      ensures Bounded() && times == old(times) + {rank.time}
      ensures RankGains([rank], old(table), old(data), table, data)
    {
      hide Bounded, RankPoints, RankScores;
      Meet(rank.team);
      table := table[rank.team := table[rank.team].(challenge := table[rank.team].challenge + rank.points)];
      data := data[rank.team := data[rank.team] + [Score(rank.time, rank.points)]];
      Note(rank.time);
      forall team { SingleRank(rank, team); }
    }

    method CountRanks(ranks: seq<Rank>)
      requires Bounded()
      modifies this`data, this`table, this`lowestTimestamp, this`highestTimestamp, this`times
      ensures table.Keys == old(table.Keys) + RankTeams(ranks) && data.Keys == old(data.Keys) + RankTeams(ranks)
      ensures Bounded() && times == old(times) + RankTimes(ranks)
      ensures RankGains(ranks, old(table), old(data), table, data)
    {
      var n := 0;
      while n < |ranks|
        invariant n <= |ranks|
        invariant table.Keys == old(table.Keys) + RankTeams(ranks[..n])
        invariant data.Keys == old(data.Keys) + RankTeams(ranks[..n])
        invariant Bounded() && times == old(times) + RankTimes(ranks[..n])
        invariant RankGains(ranks[..n], old(table), old(data), table, data)
      {
        assert ranks[..n + 1][..n] == ranks[..n];
        ghost var t, d := table, data;
        OneRank(ranks[n]);
        OneMoreRank(ranks, n, old(table), old(data), t, d, table, data);
        n := n + 1;
      }
      assert ranks[..n] == ranks;
    }

    method Challenge(challenge: Challenge)
      requires Valid()
      modifies this
      ensures Valid() && docs == old(docs) && challenges == old(challenges) + [challenge]
    {
      CountRanks(challenge.rank);
      AllRanked(points, docs, challenges, challenge, old(table), old(data), table, data);
      TeamsAndTimesAddChallenge(docs, challenges, challenge);
      challenges := challenges + [challenge];
    }

    /** One plotted line per team. The lists are sorted in place. */
    method Data() returns (res: map<string, Series>)
      requires Valid()
      modifies this`data
      ensures Valid()
      ensures res.Keys == Teams(docs, challenges)
      ensures forall team :: team in res ==>
        IsSeries(res[team], lowestTimestamp, highestTimestamp, Scores(points, docs, challenges, team))
    {
      hide Bounded, Scores, Teams, Times, Counters, IsCurve;
      res := map[];
      var left := data.Keys;
      while left != {}
        invariant left <= data.Keys == old(data.Keys) && res.Keys == data.Keys - left
        invariant HoldsAll(points, docs, challenges, table, data)
        invariant forall team :: team in res ==>
          IsSeries(res[team], lowestTimestamp, highestTimestamp, Scores(points, docs, challenges, team))
        decreases left
      {
        var team :| team in left;
        assert Holds(points, docs, challenges, team, RowAt(table, team), ScoresAt(data, team));
        var sorted := SortByTime(data[team]);
        ghost var was := data;
        data := data[team := sorted];
        forall t ensures Holds(points, docs, challenges, t, RowAt(table, t), ScoresAt(data, t)) {
          assert Holds(points, docs, challenges, t, RowAt(table, t), ScoresAt(was, t));
        }
        var corners, total := Merge(sorted);
        SameCurve(corners, sorted, Scores(points, docs, challenges, team));
        SameSums(sorted, Scores(points, docs, challenges, team), 0);
        res := res[team := Series((lowestTimestamp, 0), corners, (highestTimestamp, total))];
        left := left - {team};
      }
    }

    /** Fill in every row's points. */
    method Table() returns (res: map<string, Row>)
      requires Valid()
      modifies this`table
      ensures Valid() && res == table && res.Keys == Teams(docs, challenges)
      ensures forall team :: team in res ==> res[team].points == Worth(points, docs, challenges, team)
      ensures forall team :: team in res ==> res[team].(points := 0) == Counters(docs, challenges, team)
    {
      var left := table.Keys;
      while left != {}
        invariant left <= table.Keys == old(table.Keys)
        invariant HoldsAll(points, docs, challenges, table, data)
        invariant forall team :: team in table && team !in left ==>
          table[team].points == Worth(points, docs, challenges, team)
        decreases left
      {
        var team :| team in left;
        var row := table[team];
        assert Holds(points, docs, challenges, team, RowAt(table, team), ScoresAt(data, team));
        RowWorth(points, docs, challenges, team);
        ghost var was := table;
        table := table[team := row.(points := row.deliver * points.deliver + row.capture * points.capture
                                              + row.defend * points.defend + row.check * points.check + row.challenge)];
        forall t ensures Holds(points, docs, challenges, t, RowAt(table, t), ScoresAt(data, t)) {
          assert Holds(points, docs, challenges, t, RowAt(was, t), ScoresAt(data, t));
        }
        left := left - {team};
      }
      res := table;
      forall team | team in res ensures res[team].(points := 0) == Counters(docs, challenges, team) {
        assert Holds(points, docs, challenges, team, RowAt(table, team), ScoresAt(data, team));
      }
    }
  }

  // ----- what the table and the lines mean

  /** Counting first and multiplying at the end gives what adding up document by document gives. */
  lemma {:induction false} RowWorth(p: Points, docs: seq<Doc>, challenges: seq<Challenge>, team: string)
    ensures var row := Counters(docs, challenges, team);
            row.deliver * p.deliver + row.capture * p.capture + row.defend * p.defend + row.check * p.check + row.challenge
            == Worth(p, docs, challenges, team)
    decreases |docs|
  {
    if docs != [] {
      var rest, d := docs[..|docs| - 1], docs[|docs| - 1];
      RowWorth(p, rest, challenges, team);
      var mine := d.team == team;
      Distribute(Delivered(rest, team), if mine && d.delivered then 1 else 0, p.deliver);
      Distribute(Defended(rest, team), if mine && d.delivered && d.captures == [] then 1 else 0, p.defend);
      Distribute(Checked(rest, team), if mine then GoodChecks(d.checks) else 0, p.check);
      Distribute(StolenBy(rest, team), CapturesBy(d.captures, team), p.capture);
    }
  }

  lemma Distribute(a: int, b: int, x: int)
    ensures (a + b) * x == a * x + b * x
  {
  }
}
