/** The aggregator objects of the scoreboard, fed with flag documents one at a time. */
module Aggregators {
  import opened Arithmetic
  import opened GameTypes
  import Scoreboard
  import opened Sequences
  import opened Steals
  import opened Tallies

  /** One plotted series: bars at x positions. */
  datatype Bars = Bars(title: string, bars: seq<(int, int)>)

  /** The keys of an object, in some order. */
  method KeysOf<T>(m: map<string, T>) returns (keys: seq<string>)
    ensures forall k :: k in keys <==> k in m
    ensures Distinct(keys)
  {
    keys := [];
    var left := m.Keys;
    while left != {}
      invariant left <= m.Keys
      invariant forall k :: k in keys <==> k in m && k !in left
      invariant Distinct(keys)
      decreases left
    {
      var k :| k in left;
      keys := keys + [k];
      left := left - {k};
    }
  }

  function AtKey(m: Tally, k: string): int {
    if k in m then m[k] else 0
  }

  // ----- steals_per_service

  class StealsPerService {
    var data: Tally
    ghost var docs: seq<Doc>

    ghost predicate Valid()
      reads this
    {
      data.Keys == Services(docs) && forall s :: AtKey(data, s) == PerService(docs, s)
    }

    constructor ()
      ensures Valid() && docs == []
    {
      data, docs := map[], [];
    }

    method Flag(flag: Doc)
      requires Valid()
      modifies this
      ensures Valid() && docs == old(docs) + [flag]
    {
      assert (docs + [flag])[..|docs|] == docs;
      if flag.service !in data {
        data := data[flag.service := 0];
      }
      data := data[flag.service := data[flag.service] + |flag.captures|];
      docs := docs + [flag];
    }

    /** One bar per service, side by side. */
    method Data() returns (res: seq<Bars>)
      requires Valid()
      ensures forall i :: 0 <= i < |res| ==> res[i] == Bars(res[i].title, [(i, PerService(docs, res[i].title))])
      ensures forall i, j :: 0 <= i < j < |res| ==> res[i].title != res[j].title
      ensures forall s :: s in Services(docs) <==> exists i :: 0 <= i < |res| && res[i].title == s
    {
      var keys := KeysOf(data);
      res := [];
      while |res| < |keys|
        invariant |res| <= |keys|
        invariant forall i :: 0 <= i < |res| ==> res[i] == Bars(keys[i], [(i, PerService(docs, keys[i]))])
      {
        var key := keys[|res|];
        assert AtKey(data, key) == PerService(docs, key);
        res := res + [Bars(key, [(|res|, data[key])])];
      }
      forall s ensures s in Services(docs) <==> exists i :: 0 <= i < |res| && res[i].title == s {
        if s in Services(docs) {
          var i :| 0 <= i < |keys| && keys[i] == s;
          assert res[i].title == s;
        }
      }
    }
  }

  // ----- steals_losses_per_team

  datatype Score = Score(stolen: nat, lost: nat)

  function ScoreOf(data: map<string, Score>, team: string): Score {
    if team in data then data[team] else Score(0, 0)
  }

  /** The scores after these captures, on top of `before`. */
  ghost predicate Stole(before: map<string, Score>, captures: seq<Capture>, after: map<string, Score>) {
    && after.Keys == before.Keys + CaptureTeams(captures)
    && forall t {:trigger ScoreOf(after, t)} ::
         ScoreOf(after, t) == ScoreOf(before, t).(stolen := ScoreOf(before, t).stolen + CapturesBy(captures, t))
  }

  lemma StoleNext(before: map<string, Score>, captures: seq<Capture>, n: nat,
                  mid: map<string, Score>, after: map<string, Score>)
    requires n < |captures| && Stole(before, captures[..n], mid)
    requires after.Keys == mid.Keys + {captures[n].team}
    requires forall t {:trigger ScoreOf(after, t)} ::
      ScoreOf(after, t) == ScoreOf(mid, t).(stolen := ScoreOf(mid, t).stolen + if t == captures[n].team then 1 else 0)
    ensures Stole(before, captures[..n + 1], after)
  {
    assert captures[..n + 1][..n] == captures[..n];
    forall t ensures ScoreOf(after, t) ==
      ScoreOf(before, t).(stolen := ScoreOf(before, t).stolen + CapturesBy(captures[..n + 1], t))
    {
      assert ScoreOf(mid, t).stolen == ScoreOf(before, t).stolen + CapturesBy(captures[..n], t);
    }
  }

  class StealsLossesPerTeam {
    var data: map<string, Score>
    ghost var docs: seq<Doc>

    ghost predicate Valid()
      reads this
    {
      data.Keys == FlagTeams(docs) && forall t :: ScoreOf(data, t) == Score(StolenBy(docs, t), LostBy(docs, t))
    }

    constructor ()
      ensures Valid() && docs == []
    {
      data, docs := map[], [];
    }

    method Meet(team: string)
      modifies this`data
      ensures data.Keys == old(data.Keys) + {team} && forall t :: ScoreOf(data, t) == ScoreOf(old(data), t)
    {
      if team !in data {
        data := data[team := Score(0, 0)];
      }
    }

    method Flag(flag: Doc)
      requires Valid()
      modifies this
      ensures Valid() && docs == old(docs) + [flag]
    {
      Meet(flag.team);
      data := data[flag.team := data[flag.team].(lost := data[flag.team].lost + |flag.captures|)];
      ghost var lost := data;
      CountCaptures(flag.captures);
      Counted(docs, flag, lost, data);
      docs := docs + [flag];
    }

    lemma Counted(docs: seq<Doc>, flag: Doc, lost: map<string, Score>, after: map<string, Score>)
      requires lost.Keys == FlagTeams(docs) + {flag.team} && Stole(lost, flag.captures, after)
      requires forall t ::
        ScoreOf(lost, t) == Score(StolenBy(docs, t), LostBy(docs, t) + if t == flag.team then |flag.captures| else 0)
      ensures after.Keys == FlagTeams(docs + [flag])
      ensures forall t :: ScoreOf(after, t) == Score(StolenBy(docs + [flag], t), LostBy(docs + [flag], t))
    {
      assert (docs + [flag])[..|docs|] == docs;
    }

    method CountCaptures(captures: seq<Capture>)
      modifies this`data
      ensures Stole(old(data), captures, data)
    {
      hide Stole;
      var n := 0;
      StoleNone(data, captures[..0]);
      while n < |captures|
        invariant n <= |captures| && Stole(old(data), captures[..n], data)
      {
        ghost var mid := data;
        var team := captures[n].team;
        Meet(team);
        data := data[team := data[team].(stolen := data[team].stolen + 1)];
        StoleNext(old(data), captures, n, mid, data);
        n := n + 1;
      }
      assert captures[..n] == captures;
    }

    lemma StoleNone(data: map<string, Score>, none: seq<Capture>)
      requires none == []
      ensures Stole(data, none, data)
    {
    }

    /** Per team three slots: what it stole, what it lost, and a gap. */
    method Data() returns (teams: seq<string>, stolen: Bars, lost: Bars)
      requires Valid()
      ensures Distinct(teams) && forall t :: t in teams <==> t in FlagTeams(docs)
      ensures |stolen.bars| == |lost.bars| == |teams|
      ensures forall i :: 0 <= i < |teams| ==>
        stolen.bars[i] == (3 * i, StolenBy(docs, teams[i])) && lost.bars[i] == (3 * i + 1, LostBy(docs, teams[i]))
    {
      teams := KeysOf(data);
      var a: seq<(int, int)>, b: seq<(int, int)>, idx := [], [], 0;
      while |a| < |teams|
        invariant |a| == |b| <= |teams| && idx == 3 * |a|
        invariant forall i :: 0 <= i < |a| ==>
          a[i] == (3 * i, StolenBy(docs, teams[i])) && b[i] == (3 * i + 1, LostBy(docs, teams[i]))
      {
        var team := teams[|a|];
        assert ScoreOf(data, team) == Score(StolenBy(docs, team), LostBy(docs, team));
        a, b := a + [(idx, data[team].stolen)], b + [(idx + 1, data[team].lost)];
        idx := idx + 3;
      }
      stolen, lost := Bars("Stolen", a), Bars("Lost", b);
    }
  }

  // ----- the two team-by-service matrices

  type Matrix = map<string, Tally>

  function Entry(m: Matrix, team: string, service: string): int {
    if team in m then AtKey(m[team], service) else 0
  }

  /** Every team's row has an entry for every service. */
  ghost predicate Full(m: Matrix, services: seq<string>) {
    && Distinct(services)
    && forall t :: t in m ==> m[t].Keys == Names(services)
  }

  function ZeroRow(services: seq<string>): Tally {
    map s | s in services :: 0
  }

  /** The matrix after a flag of this service has been announced. */
  function WithService(m: Matrix, services: seq<string>, service: string): Matrix {
    if service in services then m else map t | t in m :: m[t][service := 0]
  }

  function AddService(services: seq<string>, service: string): seq<string> {
    if service in services then services else services + [service]
  }

  function WithTeam(m: Matrix, services: seq<string>, team: string): Matrix {
    if team in m then m else m[team := ZeroRow(services)]
  }

  ghost predicate SameEntries(m: Matrix, m': Matrix) {
    forall t, s {:trigger Entry(m', t, s)} :: Entry(m', t, s) == Entry(m, t, s)
  }

  /** One entry is `n` higher, the others are as before. */
  ghost predicate Raised(m: Matrix, team: string, service: string, n: int, m': Matrix) {
    forall t, s {:trigger Entry(m', t, s)} :: Entry(m', t, s) == Entry(m, t, s) + if t == team && s == service then n else 0
  }

  function Names(services: seq<string>): set<string> {
    set s | s in services
  }

  lemma ServiceKeeps(m: Matrix, services: seq<string>, service: string)
    requires Full(m, services)
    ensures var m', services' := WithService(m, services, service), AddService(services, service);
            Full(m', services') && m'.Keys == m.Keys && SameEntries(m, m')
  {
    var m', services' := WithService(m, services, service), AddService(services, service);
    if service !in services {
      forall t | t in m' ensures m'[t].Keys == Names(services') {
        assert m[t].Keys == Names(services);
      }
      forall t, s ensures Entry(m', t, s) == Entry(m, t, s) {
        if t in m { assert service !in m[t]; }
      }
    }
  }

  lemma TeamKeeps(m: Matrix, services: seq<string>, team: string)
    requires Full(m, services)
    ensures var m' := WithTeam(m, services, team);
            Full(m', services) && m'.Keys == m.Keys + {team} && SameEntries(m, m')
  {
    var m' := WithTeam(m, services, team);
    forall t, s ensures Entry(m', t, s) == Entry(m, t, s) {
      if t == team && team !in m { assert AtKey(ZeroRow(services), s) == 0; }
    }
  }

  lemma RaiseKeeps(m: Matrix, services: seq<string>, team: string, service: string, n: int)
    requires Full(m, services) && team in m && service in services
    ensures service in m[team]
    ensures var m' := m[team := m[team][service := m[team][service] + n]];
            Full(m', services) && m'.Keys == m.Keys && Raised(m, team, service, n, m')
  {
  }

  /** The matrix after these captures of a flag of this service, on top of `m`. */
  ghost predicate Took(m: Matrix, service: string, captures: seq<Capture>, m': Matrix) {
    && m'.Keys == m.Keys + CaptureTeams(captures)
    && forall t, s {:trigger Entry(m', t, s)} ::
         Entry(m', t, s) == Entry(m, t, s) + if s == service then CapturesBy(captures, t) else 0
  }

  lemma TookNone(m: Matrix, service: string, none: seq<Capture>)
    requires none == []
    ensures Took(m, service, none, m)
  {
    assert m.Keys + CaptureTeams(none) == m.Keys;
    forall t ensures CapturesBy(none, t) == 0 {
    }
  }

  lemma TookNext(m: Matrix, service: string, captures: seq<Capture>, n: nat, mid: Matrix, m': Matrix)
    requires n < |captures| && Took(m, service, captures[..n], mid)
    requires m'.Keys == mid.Keys + {captures[n].team}
    requires Raised(mid, captures[n].team, service, 1, m')
    ensures Took(m, service, captures[..n + 1], m')
  {
    assert captures[..n + 1][..n] == captures[..n];
    forall t, s ensures Entry(m', t, s) == Entry(m, t, s) + if s == service then CapturesBy(captures[..n + 1], t) else 0 {
      assert Entry(mid, t, s) == Entry(m, t, s) + if s == service then CapturesBy(captures[..n], t) else 0;
    }
  }

  /** The matrix holds what `docs` say about steals. */
  ghost predicate HoldsSteals(m: Matrix, services: seq<string>, docs: seq<Doc>) {
    && Full(m, services) && m.Keys == FlagTeams(docs) && Names(services) == Services(docs)
    && forall t, s {:trigger Entry(m, t, s)} :: Entry(m, t, s) == StolenIn(docs, t, s)
  }

  ghost predicate HoldsLosses(m: Matrix, services: seq<string>, docs: seq<Doc>) {
    && Full(m, services) && m.Keys == FlagTeams(docs) && Names(services) == Services(docs)
    && forall t, s {:trigger Entry(m, t, s)} :: Entry(m, t, s) == LostIn(docs, t, s)
  }

  /** A service and a team are announced without changing an entry. */
  lemma Announce(m: Matrix, services: seq<string>, service: string, team: string)
    requires Full(m, services)
    ensures var services' := AddService(services, service);
            var m' := WithTeam(WithService(m, services, service), services', team);
            && Full(m', services') && m'.Keys == m.Keys + {team} && service in services'
            && Names(services') == Names(services) + {service}
            && SameEntries(m, m')
  {
    ServiceKeeps(m, services, service);
    TeamKeeps(WithService(m, services, service), AddService(services, service), team);
  }

  lemma StealsCounted(m: Matrix, services: seq<string>, docs: seq<Doc>, flag: Doc,
                      mid: Matrix, services': seq<string>, m': Matrix)
    requires HoldsSteals(m, services, docs)
    requires mid.Keys == m.Keys + {flag.team} && Names(services') == Names(services) + {flag.service}
    requires SameEntries(m, mid)
    requires Full(m', services') && Took(mid, flag.service, flag.captures, m')
    ensures HoldsSteals(m', services', docs + [flag])
  {
    hide Full, Entry, CapturesBy;
    var docs' := docs + [flag];
    assert docs'[..|docs|] == docs && docs'[|docs|] == flag;
    forall t, s ensures Entry(m', t, s) == StolenIn(docs', t, s) {
      assert Entry(mid, t, s) == Entry(m, t, s) == StolenIn(docs, t, s);
    }
  }

  class StealsPerTeam {
    var services: seq<string>
    var steals: Matrix
    ghost var docs: seq<Doc>

    ghost predicate Valid()
      reads this
    {
      HoldsSteals(steals, services, docs)
    }

    constructor ()
      ensures Valid() && docs == []
    {
      services, steals, docs := [], map[], [];
    }

    method Flag(flag: Doc)
      requires Valid()
      modifies this
      ensures Valid() && docs == old(docs) + [flag]
    {
      assert Full(steals, services);
      hide Full, HoldsSteals, Took, SameEntries, Names, CaptureTeams;
      ghost var m, known := steals, services;
      Meet(flag.service, flag.team);
      ghost var mid := steals;
      CountCaptures(flag);
      StealsCounted(m, known, docs, flag, mid, services, steals);
      docs := docs + [flag];
    }

    /** The flag's service gets a column and its owner a row, both of zeros unless they were there. */
    method Meet(service: string, team: string)
      requires Full(steals, services)
      modifies this`steals, this`services
      ensures Full(steals, services) && steals.Keys == old(steals.Keys) + {team} && service in services
      ensures Names(services) == Names(old(services)) + {service}
      ensures SameEntries(old(steals), steals)
    {
      Announce(steals, services, service, team);
      hide Full, Entry;
      if service !in services {
        steals := map t | t in steals :: steals[t][service := 0];
        services := services + [service];
      }
      if team !in steals {
        steals := steals[team := ZeroRow(services)];
      }
    }

    method CountCaptures(flag: Doc)
      requires Full(steals, services) && flag.service in services
      modifies this`steals
      ensures Full(steals, services) && Took(old(steals), flag.service, flag.captures, steals)
    {
      hide Full, Took, Raised, SameEntries;
      var n := 0;
      TookNone(steals, flag.service, flag.captures[..0]);
      while n < |flag.captures|
        invariant n <= |flag.captures|
        invariant Full(steals, services) && Took(old(steals), flag.service, flag.captures[..n], steals)
      {
        ghost var mid := steals;
        var team := flag.captures[n].team;
        TeamKeeps(steals, services, team);
        if team !in steals {
          steals := steals[team := ZeroRow(services)];
        }
        RaiseKeeps(steals, services, team, flag.service, 1);
        steals := steals[team := steals[team][flag.service := steals[team][flag.service] + 1]];
        TookNext(old(steals), flag.service, flag.captures, n, mid, steals);
        n := n + 1;
      }
      assert flag.captures[..n] == flag.captures;
    }

    /** One series per service; each team has a group of bars, one per service, and a gap of two. */
    method Data() returns (teams: seq<string>, res: seq<Bars>)
      requires Valid()
      ensures Distinct(teams) && forall t :: t in teams <==> t in FlagTeams(docs)
      ensures Distinct(services) && Names(services) == Services(docs)
      ensures |res| == |services| && Apart(res) && forall k :: 0 <= k < |res| ==> res[k].title == services[k]
      ensures forall k, i | 0 <= k < |res| && 0 <= i < |teams| ::
        |res[k].bars| == |teams| && res[k].bars[i] == (i * (|services| + 2) + k, StolenIn(docs, teams[i], services[k]))
    {
      assert Distinct(services);
      hide Full, FlagTeams, Services, StolenIn, Apart;
      teams := KeysOf(steals);
      res := Groups(steals, teams, services);
      forall k, i | 0 <= k < |res| && 0 <= i < |teams|
        ensures |res[k].bars| == |teams| && res[k].bars[i] == (i * (|services| + 2) + k, StolenIn(docs, teams[i], services[k]))
      {
        assert IsGroup(res[k], teams, services, k, steals);
        assert Entry(steals, teams[i], services[k]) == StolenIn(docs, teams[i], services[k]);
      }
    }
  }

  ghost predicate IsGroup(series: Bars, teams: seq<string>, services: seq<string>, k: nat, m: Matrix)
    requires k < |services|
  {
    && series.title == services[k] && |series.bars| == |teams|
    && forall i :: 0 <= i < |teams| ==> series.bars[i] == (i * (|services| + 2) + k, Entry(m, teams[i], services[k]))
  }

  /** The bars of one service across all teams. */
  method Group(m: Matrix, teams: seq<string>, services: seq<string>, k: nat) returns (series: Bars)
    requires k < |services|
    ensures IsGroup(series, teams, services, k, m)
  {
    var bars: seq<(int, int)>, i := [], 0;
    while i < |teams|
      invariant i == |bars| <= |teams|
      invariant forall j :: 0 <= j < i ==> bars[j] == (j * (|services| + 2) + k, Entry(m, teams[j], services[k]))
    {
      bars := bars + [(i * (|services| + 2) + k, Entry(m, teams[i], services[k]))];
      i := i + 1;
    }
    series := Bars(services[k], bars);
  }

  method Groups(m: Matrix, teams: seq<string>, services: seq<string>) returns (res: seq<Bars>)
    ensures |res| == |services| && Apart(res)
    ensures forall k :: 0 <= k < |res| ==> IsGroup(res[k], teams, services, k, m)
  {
    hide IsGroup, Apart;
    res := [];
    while |res| < |services|
      invariant |res| <= |services|
      invariant forall k :: 0 <= k < |res| ==> IsGroup(res[k], teams, services, k, m)
    {
      var series := Group(m, teams, services, |res|);
      res := res + [series];
    }
    GroupsApart(res, teams, services, m);
  }

  // ----- the bars never collide

  /** No two bars of a chart have the same x position. */
  ghost predicate Apart(res: seq<Bars>) {
    forall k, i, k', i' | 0 <= k < |res| && 0 <= i < |res[k].bars| && 0 <= k' < |res| && 0 <= i' < |res[k'].bars| ::
      k != k' || i != i' ==> res[k].bars[i].0 != res[k'].bars[i'].0
  }

  lemma GroupsApart(res: seq<Bars>, teams: seq<string>, services: seq<string>, m: Matrix)
    requires |res| == |services| && forall k :: 0 <= k < |res| ==> IsGroup(res[k], teams, services, k, m)
    ensures Apart(res)
  {
    forall k, i, k', i' | 0 <= k < |res| && 0 <= i < |res[k].bars| && 0 <= k' < |res| && 0 <= i' < |res[k'].bars|
      && (k != k' || i != i') ensures res[k].bars[i].0 != res[k'].bars[i'].0
    {
      assert IsGroup(res[k], teams, services, k, m) && IsGroup(res[k'], teams, services, k', m);
      SlotsApart(|services| + 2, i, k, i', k');
    }
  }

  lemma SameSame(m: Matrix, m': Matrix, m'': Matrix)
    requires SameEntries(m, m') && SameEntries(m', m'')
    ensures SameEntries(m, m'')
  {
    forall t, s ensures Entry(m'', t, s) == Entry(m, t, s) {
      assert Entry(m'', t, s) == Entry(m', t, s) == Entry(m, t, s);
    }
  }

  lemma LossesCounted(m: Matrix, services: seq<string>, docs: seq<Doc>, flag: Doc,
                      mid: Matrix, services': seq<string>, m': Matrix)
    requires HoldsLosses(m, services, docs)
    requires mid.Keys == m.Keys + {flag.team} + CaptureTeams(flag.captures)
    requires Names(services') == Names(services) + {flag.service}
    requires SameEntries(m, mid)
    requires Full(m', services') && m'.Keys == mid.Keys
    requires Raised(mid, flag.team, flag.service, |flag.captures|, m')
    ensures HoldsLosses(m', services', docs + [flag])
  {
    hide Full, Entry;
    var docs' := docs + [flag];
    assert docs'[..|docs|] == docs && docs'[|docs|] == flag;
    forall t, s ensures Entry(m', t, s) == LostIn(docs', t, s) {
      assert Entry(mid, t, s) == Entry(m, t, s) == LostIn(docs, t, s);
    }
  }

  class LossesPerTeam {
    var services: seq<string>
    var losses: Matrix
    ghost var docs: seq<Doc>

    ghost predicate Valid()
      reads this
    {
      HoldsLosses(losses, services, docs)
    }

    constructor ()
      ensures Valid() && docs == []
    {
      services, losses, docs := [], map[], [];
    }

    method Flag(flag: Doc)
      requires Valid()
      modifies this
      ensures Valid() && docs == old(docs) + [flag]
    {
      hide Full, HoldsLosses, SameEntries, Raised, Names;
      LossesFull(losses, services, docs);
      MeetAll(flag);
      ghost var mid := losses;
      Lose(flag.team, flag.service, |flag.captures|);
      LossesCounted(old(losses), old(services), docs, flag, mid, services, losses);
      docs := docs + [flag];
    }

    lemma LossesFull(m: Matrix, services: seq<string>, docs: seq<Doc>)
      requires HoldsLosses(m, services, docs)
      ensures Full(m, services)
    {
    }

    /** The flag's service, its owner and those who captured it are all in the matrix. */
    method MeetAll(flag: Doc)
      requires Full(losses, services)
      modifies this`losses, this`services
      ensures Full(losses, services) && flag.service in services && flag.team in losses
      ensures losses.Keys == old(losses.Keys) + {flag.team} + CaptureTeams(flag.captures)
      ensures Names(services) == Names(old(services)) + {flag.service}
      ensures SameEntries(old(losses), losses)
    {
      hide Full, SameEntries, Names;
      Meet(flag.service, flag.team);
      ghost var met := losses;
      MeetCapturers(flag.captures);
      SameSame(old(losses), met, losses);
    }

    method Lose(team: string, service: string, n: int)
      requires Full(losses, services) && team in losses && service in services
      modifies this`losses
      ensures Full(losses, services) && losses.Keys == old(losses.Keys)
      ensures Raised(old(losses), team, service, n, losses)
    {
      RaiseKeeps(losses, services, team, service, n);
      hide Full, Raised;
      losses := losses[team := losses[team][service := losses[team][service] + n]];
    }

    /** The flag's service gets a column and its owner a row, both of zeros unless they were there. */
    method Meet(service: string, team: string)
      requires Full(losses, services)
      modifies this`losses, this`services
      ensures Full(losses, services) && losses.Keys == old(losses.Keys) + {team} && service in services
      ensures Names(services) == Names(old(services)) + {service}
      ensures SameEntries(old(losses), losses)
    {
      Announce(losses, services, service, team);
      hide Full, Entry;
      if service !in services {
        losses := map t | t in losses :: losses[t][service := 0];
        services := services + [service];
      }
      if team !in losses {
        losses := losses[team := ZeroRow(services)];
      }
    }

    method MeetCapturers(captures: seq<Capture>)
      requires Full(losses, services)
      modifies this`losses
      ensures Full(losses, services) && losses.Keys == old(losses.Keys) + CaptureTeams(captures)
      ensures SameEntries(old(losses), losses)
    {
      hide Full;
      var n := 0;
      while n < |captures|
        invariant n <= |captures|
        invariant Full(losses, services) && losses.Keys == old(losses.Keys) + CaptureTeams(captures[..n])
        invariant SameEntries(old(losses), losses)
      {
        assert captures[..n + 1][..n] == captures[..n];
        TeamKeeps(losses, services, captures[n].team);
        if captures[n].team !in losses {
          losses := losses[captures[n].team := ZeroRow(services)];
        }
        n := n + 1;
      }
      assert captures[..n] == captures;
    }

    /** One series per service; each team has a group of bars, one per service, and a gap of two. */
    method Data() returns (teams: seq<string>, res: seq<Bars>)
      requires Valid()
      ensures Distinct(teams) && forall t :: t in teams <==> t in FlagTeams(docs)
      ensures Distinct(services) && Names(services) == Services(docs)
      ensures |res| == |services| && Apart(res) && forall k :: 0 <= k < |res| ==> res[k].title == services[k]
      ensures forall k, i | 0 <= k < |res| && 0 <= i < |teams| ::
        |res[k].bars| == |teams| && res[k].bars[i] == (i * (|services| + 2) + k, LostIn(docs, teams[i], services[k]))
    {
      assert Distinct(services);
      hide Full, FlagTeams, Services, LostIn, Apart;
      teams := KeysOf(losses);
      res := Groups(losses, teams, services);
      forall k, i | 0 <= k < |res| && 0 <= i < |teams|
        ensures |res[k].bars| == |teams| && res[k].bars[i] == (i * (|services| + 2) + k, LostIn(docs, teams[i], services[k]))
      {
        assert IsGroup(res[k], teams, services, k, losses);
        assert Entry(losses, teams[i], services[k]) == LostIn(docs, teams[i], services[k]);
      }
    }
  }

  // ----- the whole report

  /** The aggregators of one report, all fed with the same flags. */
  method Feed(docs: seq<Doc>, points: Points)
    returns (perService: StealsPerService, totals: StealsLossesPerTeam, steals: StealsPerTeam, losses: LossesPerTeam,
             scores: Scoreboard.ScoreOverTime)
    ensures perService.Valid() && totals.Valid() && steals.Valid() && losses.Valid() && scores.Valid()
    ensures perService.docs == totals.docs == steals.docs == losses.docs == scores.docs == docs
    ensures scores.challenges == []
  {
    hide StealsPerService.Valid, StealsLossesPerTeam.Valid, StealsPerTeam.Valid, LossesPerTeam.Valid;
    hide Scoreboard.ScoreOverTime.Valid;
    perService := new StealsPerService();
    totals := new StealsLossesPerTeam();
    steals := new StealsPerTeam();
    losses := new LossesPerTeam();
    scores := new Scoreboard.ScoreOverTime(points);
    var n := 0;
    while n < |docs|
      invariant n <= |docs|
      invariant fresh(perService) && fresh(totals) && fresh(steals) && fresh(losses) && fresh(scores)
      invariant perService.Valid() && totals.Valid() && steals.Valid() && losses.Valid() && scores.Valid()
      invariant perService.docs == totals.docs == steals.docs == losses.docs == scores.docs == docs[..n]
      invariant scores.challenges == []
    {
      assert docs[..n + 1] == docs[..n] + [docs[n]];
      scores.Flag(docs[n]);
      losses.Flag(docs[n]);
      steals.Flag(docs[n]);
      totals.Flag(docs[n]);
      perService.Flag(docs[n]);
      n := n + 1;
    }
    assert docs[..n] == docs;
  }

  lemma StolenRowIs(docs: seq<Doc>, m: Matrix, services: seq<string>, t: string)
    requires HoldsSteals(m, services, docs) && t in m
    ensures m[t] == StolenRow(docs, t, Services(docs))
  {
    hide StolenIn, Services, FlagTeams;
    forall s | s in Services(docs) ensures m[t][s] == StolenIn(docs, t, s) {
      assert Entry(m, t, s) == StolenIn(docs, t, s);
    }
  }

  lemma LostRowIs(docs: seq<Doc>, m: Matrix, services: seq<string>, t: string)
    requires HoldsLosses(m, services, docs) && t in m
    ensures m[t] == LostRow(docs, t, Services(docs))
  {
    hide LostIn, Services, FlagTeams;
    forall s | s in Services(docs) ensures m[t][s] == LostIn(docs, t, s) {
      assert Entry(m, t, s) == LostIn(docs, t, s);
    }
  }

  /** Rows: a team's entries, one for each service, add up to its totals. */
  lemma StolenRowAgrees(docs: seq<Doc>, m: Matrix, services: seq<string>, t: string)
    requires HoldsSteals(m, services, docs) && t in m
    ensures m[t].Keys == Services(docs) && SumOf(m[t]) == StolenBy(docs, t)
  {
    hide HoldsSteals, SumOf, StolenBy, Services;
    StolenRowIs(docs, m, services, t);
    StolenRowSum(docs, t, Services(docs));
  }

  lemma LostRowAgrees(docs: seq<Doc>, m: Matrix, services: seq<string>, t: string)
    requires HoldsLosses(m, services, docs) && t in m
    ensures m[t].Keys == Services(docs) && SumOf(m[t]) == LostBy(docs, t)
  {
    hide HoldsLosses, SumOf, LostBy, Services;
    LostRowIs(docs, m, services, t);
    LostRowSum(docs, t, Services(docs));
  }

  function ColumnOf(m: Matrix, service: string): Tally {
    map t | t in m :: Entry(m, t, service)
  }

  lemma StolenColumnIs(docs: seq<Doc>, m: Matrix, services: seq<string>, s: string)
    requires HoldsSteals(m, services, docs)
    ensures ColumnOf(m, s) == StolenColumn(docs, FlagTeams(docs), s)
  {
    hide StolenIn, Services, FlagTeams, Full, Entry;
  }

  lemma LostColumnIs(docs: seq<Doc>, m: Matrix, services: seq<string>, s: string)
    requires HoldsLosses(m, services, docs)
    ensures ColumnOf(m, s) == LostColumn(docs, FlagTeams(docs), s)
  {
    hide LostIn, Services, FlagTeams, Full, Entry;
  }

  /** Columns: a service's entries, one for each team, add up to its bar. */
  lemma StolenColumnAgrees(docs: seq<Doc>, m: Matrix, services: seq<string>, s: string)
    requires HoldsSteals(m, services, docs)
    ensures SumOf(ColumnOf(m, s)) == PerService(docs, s)
  {
    hide HoldsSteals, SumOf, ColumnOf, StolenColumn, PerService, FlagTeams;
    StolenColumnIs(docs, m, services, s);
    StolenColumnSum(docs, FlagTeams(docs), s);
  }

  lemma LostColumnAgrees(docs: seq<Doc>, m: Matrix, services: seq<string>, s: string)
    requires HoldsLosses(m, services, docs)
    ensures SumOf(ColumnOf(m, s)) == PerService(docs, s)
  {
    hide HoldsLosses, SumOf, ColumnOf, LostColumn, PerService, FlagTeams;
    LostColumnIs(docs, m, services, s);
    LostColumnSum(docs, FlagTeams(docs), s);
  }

  function StolenOf(totals: map<string, Score>): Tally {
    map t | t in totals :: totals[t].stolen
  }

  function LostOf(totals: map<string, Score>): Tally {
    map t | t in totals :: totals[t].lost
  }

  /** Totals: everything stolen, everything lost and everything per service is every capture. */
  lemma TotalsAgree(docs: seq<Doc>, perService: Tally, totals: map<string, Score>)
    requires perService.Keys == Services(docs) && forall s :: AtKey(perService, s) == PerService(docs, s)
    requires totals.Keys == FlagTeams(docs) && forall t :: ScoreOf(totals, t) == Score(StolenBy(docs, t), LostBy(docs, t))
    ensures SumOf(StolenOf(totals)) == SumOf(LostOf(totals)) == SumOf(perService) == Captures(docs)
  {
    hide Services, FlagTeams, PerService, StolenBy, LostBy, SumOf, Captures;
    StolenTotal(docs, FlagTeams(docs));
    LostTotal(docs, FlagTeams(docs));
    ServiceTotal(docs, Services(docs));
    forall t | t in totals ensures totals[t] == Score(StolenBy(docs, t), LostBy(docs, t)) {
      assert ScoreOf(totals, t) == Score(StolenBy(docs, t), LostBy(docs, t));
    }
    forall s | s in perService ensures perService[s] == PerService(docs, s) {
      assert AtKey(perService, s) == PerService(docs, s);
    }
    assert StolenOf(totals) == StolenTotals(docs, FlagTeams(docs));
    assert LostOf(totals) == LostTotals(docs, FlagTeams(docs));
    assert perService == ServiceTotals(docs, Services(docs));
  }

  /** The scoreboard's table has the same teams, and its capture counters are what they have stolen. */
  lemma TableAgrees(docs: seq<Doc>, p: Points, table: Scoreboard.Table, lists: Scoreboard.Lists)
    requires table.Keys == Scoreboard.Teams(docs, []) && Scoreboard.HoldsAll(p, docs, [], table, lists)
    ensures table.Keys == FlagTeams(docs)
    ensures forall t :: t in table ==> table[t].capture == StolenBy(docs, t)
  {
    hide FlagTeams, StolenBy;
    forall t | t in table ensures table[t].capture == StolenBy(docs, t) {
      assert Scoreboard.Holds(p, docs, [], t, Scoreboard.RowAt(table, t), Scoreboard.ScoresAt(lists, t));
    }
  }

  /** The aggregators built from the same flags agree with each other, whatever the flags. */
  method Report(docs: seq<Doc>, points: Points)
    returns (perService: StealsPerService, totals: StealsLossesPerTeam, steals: StealsPerTeam, losses: LossesPerTeam,
             scores: Scoreboard.ScoreOverTime)
    ensures perService.Valid() && totals.Valid() && steals.Valid() && losses.Valid() && scores.Valid()
    ensures perService.docs == totals.docs == steals.docs == losses.docs == scores.docs == docs
    ensures totals.data.Keys == steals.steals.Keys == losses.losses.Keys == scores.table.Keys
    ensures forall t :: t in totals.data ==>
      && steals.steals[t].Keys == losses.losses[t].Keys == perService.data.Keys
      && SumOf(steals.steals[t]) == totals.data[t].stolen == scores.table[t].capture
      && SumOf(losses.losses[t]) == totals.data[t].lost
    ensures forall s :: s in perService.data ==>
      SumOf(ColumnOf(steals.steals, s)) == perService.data[s] == SumOf(ColumnOf(losses.losses, s))
    ensures SumOf(StolenOf(totals.data)) == SumOf(LostOf(totals.data)) == SumOf(perService.data) == Captures(docs)
  {
    perService, totals, steals, losses, scores := Feed(docs, points);
    TableAgrees(docs, scores.points, scores.table, scores.data);
    assert totals.data.Keys == steals.steals.Keys == losses.losses.Keys == FlagTeams(docs);
    TotalsAgree(docs, perService.data, totals.data);
    hide HoldsSteals, HoldsLosses, ColumnOf, SumOf, StolenOf, LostOf;
    forall t | t in totals.data
      ensures steals.steals[t].Keys == losses.losses[t].Keys == perService.data.Keys
      ensures SumOf(steals.steals[t]) == totals.data[t].stolen && SumOf(losses.losses[t]) == totals.data[t].lost
      ensures totals.data[t].stolen == scores.table[t].capture
    {
      StolenRowAgrees(docs, steals.steals, steals.services, t);
      LostRowAgrees(docs, losses.losses, losses.services, t);
      assert ScoreOf(totals.data, t) == Score(StolenBy(docs, t), LostBy(docs, t));
    }
    forall s | s in perService.data
      ensures SumOf(ColumnOf(steals.steals, s)) == perService.data[s] == SumOf(ColumnOf(losses.losses, s))
    {
      StolenColumnAgrees(docs, steals.steals, steals.services, s);
      LostColumnAgrees(docs, losses.losses, losses.services, s);
      assert AtKey(perService.data, s) == PerService(docs, s);
    }
  }
}
