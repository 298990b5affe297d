/** The scoreboard's aggregators of stolen and lost flags, and why they always agree. */
module Steals {
  import opened GameTypes
  import opened Tallies

  // ----- what they count

  function LostBy(docs: seq<Doc>, team: string): nat {
    if docs == [] then 0
    else var d := docs[|docs| - 1]; LostBy(docs[..|docs| - 1], team) + if d.team == team then |d.captures| else 0
  }

  function StolenIn(docs: seq<Doc>, team: string, service: string): nat {
    if docs == [] then 0
    else
      var d := docs[|docs| - 1];
      StolenIn(docs[..|docs| - 1], team, service) + if d.service == service then CapturesBy(d.captures, team) else 0
  }

  function LostIn(docs: seq<Doc>, team: string, service: string): nat {
    if docs == [] then 0
    else
      var d := docs[|docs| - 1];
      LostIn(docs[..|docs| - 1], team, service) + if d.service == service && d.team == team then |d.captures| else 0
  }

  function PerService(docs: seq<Doc>, service: string): nat {
    if docs == [] then 0
    else var d := docs[|docs| - 1]; PerService(docs[..|docs| - 1], service) + if d.service == service then |d.captures| else 0
  }

  function Captures(docs: seq<Doc>): nat {
    if docs == [] then 0 else Captures(docs[..|docs| - 1]) + |docs[|docs| - 1].captures|
  }

  function Services(docs: seq<Doc>): set<string> {
    if docs == [] then {} else Services(docs[..|docs| - 1]) + {docs[|docs| - 1].service}
  }

  // ----- one list of all captures, from which every count can be read off

  /** Whose flag of which service was captured, and by whom. */
  datatype Theft = Theft(owner: string, service: string, thief: string)

  function TheftsOf(d: Doc): seq<Theft> {
    seq(|d.captures|, i requires 0 <= i < |d.captures| => Theft(d.team, d.service, d.captures[i].team))
  }

  function Thefts(docs: seq<Doc>): seq<Theft> {
    if docs == [] then [] else Thefts(docs[..|docs| - 1]) + TheftsOf(docs[|docs| - 1])
  }

  function CountIf(thefts: seq<Theft>, p: Theft -> bool): nat {
    if thefts == [] then 0 else CountIf(thefts[..|thefts| - 1], p) + if p(thefts[|thefts| - 1]) then 1 else 0
  }

  lemma {:induction false} CountConcat(a: seq<Theft>, b: seq<Theft>, p: Theft -> bool)
    ensures CountIf(a + b, p) == CountIf(a, p) + CountIf(b, p)
    decreases |b|
  {
    if b == [] {
      assert a + b == a;
    } else {
      CountConcat(a, b[..|b| - 1], p);
      assert (a + b)[..|a + b| - 1] == a + b[..|b| - 1];
    }
  }

  lemma {:induction false} CountSame(thefts: seq<Theft>, p: Theft -> bool, yes: bool)
    requires forall i :: 0 <= i < |thefts| ==> p(thefts[i]) == yes
    ensures CountIf(thefts, p) == if yes then |thefts| else 0
    decreases |thefts|
  {
    if thefts != [] { CountSame(thefts[..|thefts| - 1], p, yes); }
  }

  lemma {:induction false} CountByThief(d: Doc, thefts: seq<Theft>, captures: seq<Capture>, team: string, p: Theft -> bool)
    requires |thefts| == |captures|
    requires forall i :: 0 <= i < |thefts| ==> (p(thefts[i]) <==> captures[i].team == team)
    ensures CountIf(thefts, p) == CapturesBy(captures, team)
    decreases |thefts|
  {
    if thefts != [] { CountByThief(d, thefts[..|thefts| - 1], captures[..|captures| - 1], team, p); }
  }

  /** What the aggregators count: a capture is stolen by its team and lost by the owner of its flag. */
  lemma {:induction false} CountsAreThefts(docs: seq<Doc>, team: string, service: string)
    ensures StolenBy(docs, team) == CountIf(Thefts(docs), (x: Theft) => x.thief == team)
    ensures LostBy(docs, team) == CountIf(Thefts(docs), (x: Theft) => x.owner == team)
    ensures StolenIn(docs, team, service) == CountIf(Thefts(docs), (x: Theft) => x.thief == team && x.service == service)
    ensures LostIn(docs, team, service) == CountIf(Thefts(docs), (x: Theft) => x.owner == team && x.service == service)
    ensures PerService(docs, service) == CountIf(Thefts(docs), (x: Theft) => x.service == service)
    ensures Captures(docs) == |Thefts(docs)|
    decreases |docs|
  {
    if docs != [] {
      var rest, d := docs[..|docs| - 1], docs[|docs| - 1];
      CountsAreThefts(rest, team, service);
      StolenAreThefts(rest, d, team, service);
      LostAreThefts(rest, d, team, service);
    }
  }

  lemma StolenAreThefts(rest: seq<Doc>, d: Doc, team: string, service: string)
    ensures CountIf(Thefts(rest) + TheftsOf(d), (x: Theft) => x.thief == team)
         == CountIf(Thefts(rest), (x: Theft) => x.thief == team) + CapturesBy(d.captures, team)
    ensures CountIf(Thefts(rest) + TheftsOf(d), (x: Theft) => x.thief == team && x.service == service)
         == CountIf(Thefts(rest), (x: Theft) => x.thief == team && x.service == service)
            + if d.service == service then CapturesBy(d.captures, team) else 0
  {
    var p, q := (x: Theft) => x.thief == team, (x: Theft) => x.thief == team && x.service == service;
    CountConcat(Thefts(rest), TheftsOf(d), p);
    CountConcat(Thefts(rest), TheftsOf(d), q);
    CountByThief(d, TheftsOf(d), d.captures, team, p);
    if d.service == service {
      CountByThief(d, TheftsOf(d), d.captures, team, q);
    } else {
      CountSame(TheftsOf(d), q, false);
    }
  }

  lemma LostAreThefts(rest: seq<Doc>, d: Doc, team: string, service: string)
    ensures CountIf(Thefts(rest) + TheftsOf(d), (x: Theft) => x.owner == team)
         == CountIf(Thefts(rest), (x: Theft) => x.owner == team) + if d.team == team then |d.captures| else 0
    ensures CountIf(Thefts(rest) + TheftsOf(d), (x: Theft) => x.owner == team && x.service == service)
         == CountIf(Thefts(rest), (x: Theft) => x.owner == team && x.service == service)
            + if d.service == service && d.team == team then |d.captures| else 0
    ensures CountIf(Thefts(rest) + TheftsOf(d), (x: Theft) => x.service == service)
         == CountIf(Thefts(rest), (x: Theft) => x.service == service) + if d.service == service then |d.captures| else 0
  {
    var p, q := (x: Theft) => x.owner == team, (x: Theft) => x.owner == team && x.service == service;
    var r := (x: Theft) => x.service == service;
    CountConcat(Thefts(rest), TheftsOf(d), p);
    CountConcat(Thefts(rest), TheftsOf(d), q);
    CountConcat(Thefts(rest), TheftsOf(d), r);
    CountSame(TheftsOf(d), p, d.team == team);
    CountSame(TheftsOf(d), q, d.team == team && d.service == service);
    CountSame(TheftsOf(d), r, d.service == service);
  }

  // ----- rows, columns and totals

  function StolenRow(docs: seq<Doc>, team: string, services: set<string>): Tally {
    map s | s in services :: StolenIn(docs, team, s)
  }

  function LostRow(docs: seq<Doc>, team: string, services: set<string>): Tally {
    map s | s in services :: LostIn(docs, team, s)
  }

  function StolenColumn(docs: seq<Doc>, teams: set<string>, service: string): Tally {
    map t | t in teams :: StolenIn(docs, t, service)
  }

  function LostColumn(docs: seq<Doc>, teams: set<string>, service: string): Tally {
    map t | t in teams :: LostIn(docs, t, service)
  }

  function StolenTotals(docs: seq<Doc>, teams: set<string>): Tally {
    map t | t in teams :: StolenBy(docs, t)
  }

  function LostTotals(docs: seq<Doc>, teams: set<string>): Tally {
    map t | t in teams :: LostBy(docs, t)
  }

  function ServiceTotals(docs: seq<Doc>, services: set<string>): Tally {
    map s | s in services :: PerService(docs, s)
  }

  /** A team's row of the steals matrix adds up to what it has stolen. */
  lemma {:induction false} StolenRowSum(docs: seq<Doc>, team: string, services: set<string>)
    requires Services(docs) <= services
    ensures SumOf(StolenRow(docs, team, services)) == StolenBy(docs, team)
    decreases |docs|
  {
    if docs == [] {
      SumZero(StolenRow(docs, team, services));
    } else {
      var rest, d := docs[..|docs| - 1], docs[|docs| - 1];
      StolenRowSum(rest, team, services);
      var row := StolenRow(rest, team, services);
      RaiseOne(row, StolenRow(docs, team, services), d.service, CapturesBy(d.captures, team));
    }
  }

  /** A team's row of the losses matrix adds up to what it has lost. */
  lemma {:induction false} LostRowSum(docs: seq<Doc>, team: string, services: set<string>)
    requires Services(docs) <= services
    ensures SumOf(LostRow(docs, team, services)) == LostBy(docs, team)
    decreases |docs|
  {
    if docs == [] {
      SumZero(LostRow(docs, team, services));
    } else {
      var rest, d := docs[..|docs| - 1], docs[|docs| - 1];
      LostRowSum(rest, team, services);
      var row, n := LostRow(rest, team, services), if d.team == team then |d.captures| else 0;
      RaiseOne(row, LostRow(docs, team, services), d.service, n);
    }
  }

  /** One flag's captures, team by team, raise a tally by their number. */
  lemma {:induction false} RaiseAll(before: Tally, after: Tally, captures: seq<Capture>)
    requires before.Keys == after.Keys && CaptureTeams(captures) <= before.Keys
    requires forall t :: t in before ==> after[t] == before[t] + CapturesBy(captures, t)
    ensures SumOf(after) == SumOf(before) + |captures|
    decreases |captures|
  {
    if captures == [] {
      assert after == before;
    } else {
      var rest, last := captures[..|captures| - 1], captures[|captures| - 1];
      var middle := map t | t in before :: before[t] + CapturesBy(rest, t);
      RaiseAll(before, middle, rest);
      RaiseOne(middle, after, last.team, 1);
    }
  }

  /** A service's column of the steals matrix adds up to the captures of its flags ... */
  lemma {:induction false} StolenColumnSum(docs: seq<Doc>, teams: set<string>, service: string)
    requires FlagTeams(docs) <= teams
    ensures SumOf(StolenColumn(docs, teams, service)) == PerService(docs, service)
    decreases |docs|
  {
    if docs == [] {
      SumZero(StolenColumn(docs, teams, service));
    } else {
      var rest, d := docs[..|docs| - 1], docs[|docs| - 1];
      StolenColumnSum(rest, teams, service);
      var stolen := StolenColumn(rest, teams, service);
      if d.service == service {
        RaiseAll(stolen, StolenColumn(docs, teams, service), d.captures);
      } else {
        assert StolenColumn(docs, teams, service) == stolen;
      }
    }
  }

  /** ... and so does its column of the losses matrix. */
  lemma {:induction false} LostColumnSum(docs: seq<Doc>, teams: set<string>, service: string)
    requires FlagTeams(docs) <= teams
    ensures SumOf(LostColumn(docs, teams, service)) == PerService(docs, service)
    decreases |docs|
  {
    if docs == [] {
      SumZero(LostColumn(docs, teams, service));
    } else {
      var rest, d := docs[..|docs| - 1], docs[|docs| - 1];
      LostColumnSum(rest, teams, service);
      var lost, n := LostColumn(rest, teams, service), if d.service == service then |d.captures| else 0;
      RaiseOne(lost, LostColumn(docs, teams, service), d.team, n);
    }
  }

  /** Every capture is stolen by one team, ... */
  lemma {:induction false} StolenTotal(docs: seq<Doc>, teams: set<string>)
    requires FlagTeams(docs) <= teams
    ensures SumOf(StolenTotals(docs, teams)) == Captures(docs)
    decreases |docs|
  {
    if docs == [] {
      SumZero(StolenTotals(docs, teams));
    } else {
      var rest, d := docs[..|docs| - 1], docs[|docs| - 1];
      StolenTotal(rest, teams);
      RaiseAll(StolenTotals(rest, teams), StolenTotals(docs, teams), d.captures);
    }
  }

  /** ... lost by one team, ... */
  lemma {:induction false} LostTotal(docs: seq<Doc>, teams: set<string>)
    requires FlagTeams(docs) <= teams
    ensures SumOf(LostTotals(docs, teams)) == Captures(docs)
    decreases |docs|
  {
    if docs == [] {
      SumZero(LostTotals(docs, teams));
    } else {
      var rest, d := docs[..|docs| - 1], docs[|docs| - 1];
      LostTotal(rest, teams);
      RaiseOne(LostTotals(rest, teams), LostTotals(docs, teams), d.team, |d.captures|);
    }
  }

  /** ... and counted for one service. */
  lemma {:induction false} ServiceTotal(docs: seq<Doc>, services: set<string>)
    requires Services(docs) <= services
    ensures SumOf(ServiceTotals(docs, services)) == Captures(docs)
    decreases |docs|
  {
    if docs == [] {
      SumZero(ServiceTotals(docs, services));
    } else {
      var rest, d := docs[..|docs| - 1], docs[|docs| - 1];
      ServiceTotal(rest, services);
      RaiseOne(ServiceTotals(rest, services), ServiceTotals(docs, services), d.service, |d.captures|);
    }
  }
}
