/** The daemon object itself: its handlers, each one step of the step system. */
module Ctfd {
  import opened GameTypes
  import Steps = DaemonSteps
  import Origins

  datatype Flag = Flag(name: string, data: string, team: string, service: string)

  const NAME_ALPHABET := "abcdefghijklmnopqrstuvwxyzABCDEFGHIJKLMNOPQRSTUVWXYZ0123456789"
  const DATA_ALPHABET := "0123456789ABCDEF"

  /** A string over the alphabet of exactly the asked length. */
  predicate IsOver(str: string, alphabet: string, length: nat) {
    |str| == length && forall i | 0 <= i < |str| :: str[i] in alphabet
  }

  /** Random indices for a string of this length. */
  predicate IsDraw(alphabet: string, length: nat, picks: seq<nat>) {
    |picks| == length && forall i | 0 <= i < |picks| :: picks[i] < |alphabet|
  }

  predicate AreDraws(alphabet: string, length: nat, draws: seq<seq<nat>>) {
    forall n | 0 <= n < |draws| :: IsDraw(alphabet, length, draws[n])
  }

  function Spelled(alphabet: string, picks: seq<nat>): string
    requires IsDraw(alphabet, |picks|, picks)
  {
    seq(|picks|, i requires 0 <= i < |picks| => alphabet[picks[i]])
  }

  /** The first string drawn that is not taken. */
  function FirstFree(alphabet: string, length: nat, taken: set<string>, draws: seq<seq<nat>>): (str: Option<string>)
    requires AreDraws(alphabet, length, draws)
    ensures str.Some? ==> str.value !in taken && IsOver(str.value, alphabet, length)
    ensures str.None? <==> forall n :: 0 <= n < |draws| ==> Spelled(alphabet, draws[n]) in taken
  {
    if draws == [] then None
    else if Spelled(alphabet, draws[0]) !in taken then Some(Spelled(alphabet, draws[0]))
    else
      var rest := draws[1..];
      assert forall n :: 0 < n < |draws| ==> draws[n] == rest[n - 1];
      FirstFree(alphabet, length, taken, rest)
  }

  /** What is drawn for one flag: attempts at its name and attempts at its data. */
  datatype Draws = Draws(names: seq<seq<nat>>, datas: seq<seq<nat>>)

  class FlagFactory {
    var nameToFlag: map<string, Flag>
    var flags: map<string, Flag>
    const nameLength: nat
    const flagLength: nat

    constructor (nameLength: nat, flagLength: nat)
      ensures this.nameLength == nameLength && this.flagLength == flagLength
      ensures nameToFlag == map[] && flags == map[]
    {
      this.nameLength, this.flagLength := nameLength, flagLength;
      nameToFlag, flags := map[], map[];
    }

    /** `picks` stands for the random indices drawn. */
    static method CreateRandomString(alphabet: string, length: nat, picks: seq<nat>) returns (str: string)
      requires IsDraw(alphabet, length, picks)
      ensures str == Spelled(alphabet, picks)
    {
      str := "";
      while |str| < length
        invariant |str| <= length
        invariant forall i :: 0 <= i < |str| ==> str[i] == alphabet[picks[i]]
      {
        str := str + [alphabet[picks[|str|]]];
      }
    }

    /** The first string drawn that is not taken, as long as the draws produce one. */
    static method CreateUniqueRandomString(alphabet: string, length: nat, taken: set<string>, draws: seq<seq<nat>>)
      returns (result: Option<string>)
      requires AreDraws(alphabet, length, draws)
      ensures result == FirstFree(alphabet, length, taken, draws)
      ensures result.Some? ==> result.value !in taken && IsOver(result.value, alphabet, length)
      ensures result.None? ==> forall n :: 0 <= n < |draws| ==> Spelled(alphabet, draws[n]) in taken
    {
      var n := 0;
      assert draws[0..] == draws;
      while n < |draws|
        invariant n <= |draws|
        invariant FirstFree(alphabet, length, taken, draws) == FirstFree(alphabet, length, taken, draws[n..])
      {
        assert draws[n..][0] == draws[n] && draws[n..][1..] == draws[n + 1..];
        var str := CreateRandomString(alphabet, length, draws[n]);
        if str !in taken {
          return Some(str);
        }
        n := n + 1;
      }
      result := None;
    }

    predicate CanDraw(draws: Draws)
      reads this
    {
      && AreDraws(NAME_ALPHABET, nameLength, draws.names) && AreDraws(DATA_ALPHABET, flagLength, draws.datas)
      && FirstFree(NAME_ALPHABET, nameLength, nameToFlag.Keys, draws.names).Some?
      && FirstFree(DATA_ALPHABET, flagLength, flags.Keys, draws.datas).Some?
    }

    /** One of the attempts at the name, and one of those at the data, has to be new. */
    method CreateFlag(team: string, service: string, draws: Draws) returns (flag: Flag)
      requires CanDraw(draws)
      modifies this
      ensures flag.team == team && flag.service == service
      ensures Some(flag.name) == old(FirstFree(NAME_ALPHABET, nameLength, nameToFlag.Keys, draws.names))
      ensures Some(flag.data) == old(FirstFree(DATA_ALPHABET, flagLength, flags.Keys, draws.datas))
      ensures flag.name !in old(nameToFlag) && IsOver(flag.name, NAME_ALPHABET, nameLength)
      ensures flag.data !in old(flags) && IsOver(flag.data, DATA_ALPHABET, flagLength)
      ensures nameToFlag == old(nameToFlag)[flag.name := flag] && flags == old(flags)[flag.data := flag]
    {
      var name := CreateUniqueRandomString(NAME_ALPHABET, nameLength, nameToFlag.Keys, draws.names);
      var data := CreateUniqueRandomString(DATA_ALPHABET, flagLength, flags.Keys, draws.datas);
      flag := Flag(name.value, data.value, team, service);
      nameToFlag := nameToFlag[flag.name := flag];
      flags := flags[flag.data := flag];
    }
  }

  // ----- the draws of a round

  /** What the draws for the flags of one round settle on, flag by flag. */
  ghost predicate Settles(nameLength: nat, flagLength: nat, names: set<string>, datas: set<string>,
                          draws: seq<Draws>, choices: seq<(string, string)>)
    decreases |draws|
  {
    && |draws| == |choices|
    && (draws != [] ==>
          && AreDraws(NAME_ALPHABET, nameLength, draws[0].names) && AreDraws(DATA_ALPHABET, flagLength, draws[0].datas)
          && FirstFree(NAME_ALPHABET, nameLength, names, draws[0].names) == Some(choices[0].0)
          && FirstFree(DATA_ALPHABET, flagLength, datas, draws[0].datas) == Some(choices[0].1)
          && Settles(nameLength, flagLength, names + {choices[0].0}, datas + {choices[0].1}, draws[1..], choices[1..]))
  }

  /** They are new, unlike each other, and of the right form. */
  lemma {:induction false} SettledFresh(nameLength: nat, flagLength: nat, s: Steps.State,
                                        names: set<string>, datas: set<string>,
                                        draws: seq<Draws>, choices: seq<(string, string)>)
    requires s.names <= names && s.datas <= datas && Settles(nameLength, flagLength, names, datas, draws, choices)
    ensures Steps.Fresh(s, choices)
    ensures forall i :: 0 <= i < |choices| ==>
      && choices[i].0 !in names && IsOver(choices[i].0, NAME_ALPHABET, nameLength)
      && choices[i].1 !in datas && IsOver(choices[i].1, DATA_ALPHABET, flagLength)
    decreases |draws|
  {
    if draws != [] {
      var rest := choices[1..];
      SettledFresh(nameLength, flagLength, s, names + {choices[0].0}, datas + {choices[0].1}, draws[1..], rest);
      assert forall i :: 0 < i < |choices| ==> choices[i] == rest[i - 1];
    }
  }

  class CTFd {
    const config: Steps.Config
    const flagFactory: FlagFactory
    var latestPlantTime: Option<int>
    var teamOf: map<nat, Option<string>>
    // what runs outside the daemon: the clock, commands and database work under way, the collections
    var clock: int
    var planting: set<string>
    var tasks: map<int, Steps.Task>
    var next: int
    var flags: map<string, Doc>
    var challenges: map<string, Challenge>
    // histories
    ghost var rounds: seq<int>
    ghost var history: seq<Steps.Planted>
    ghost var trace: seq<Steps.Write>

    constructor (config: Steps.Config)
      ensures this.config == config && fresh(flagFactory) && View() == Steps.INITIAL
      ensures flagFactory.nameLength == 15 && flagFactory.flagLength == 64
    {
      this.config := config;
      flagFactory := new FlagFactory(15, 64);
      latestPlantTime, teamOf := None, map[];
      clock, planting, tasks, next, flags, challenges := 0, {}, map[], 0, map[], map[];
      rounds, history, trace := [], [], [];
    }

    ghost function View(): Steps.State
      reads this, flagFactory
    {
      Steps.State(clock, latestPlantTime, rounds, history, flagFactory.nameToFlag.Keys, flagFactory.flags.Keys,
                  planting, tasks, next, teamOf, flags, challenges, trace)
    }

    method Issue(task: Steps.Task)
      modifies this`tasks, this`next
      ensures View() == Steps.Enqueue(old(View()), task)
    {
      tasks := tasks[next := task];
      next := next + 1;
    }

    /** The 'flag' event of the factory: store the new flag. */
    method OnFlagCreated(flag: Flag, time: int)
      modifies this`tasks, this`next
      ensures View() == Steps.Enqueue(old(View()),
        Steps.Save(Doc(flag.data, flag.name, flag.team, flag.service, [], [], false, time)))
    {
      Issue(Steps.Save(Doc(flag.data, flag.name, flag.team, flag.service, [], [], false, time)));
    }

    /** The draws left for this round settle on the choices left. */
    ghost predicate Settle(draws: seq<Draws>, choices: seq<(string, string)>)
      reads flagFactory
    {
      Settles(flagFactory.nameLength, flagFactory.flagLength, flagFactory.nameToFlag.Keys, flagFactory.flags.Keys,
              draws, choices)
    }

    method PlantOne(service: string, team: string, draws: seq<Draws>, n: nat, ghost choices: seq<(string, string)>)
      requires n < |draws| == |choices| && Settle(draws[n..], choices[n..])
      modifies this, flagFactory
      ensures View() == Steps.PlantOne(old(View()), (service, team), choices[n])
      ensures clock == old(clock) && Settle(draws[n + 1..], choices[n + 1..])
    {
      assert draws[n..][1..] == draws[n + 1..] && choices[n..][1..] == choices[n + 1..];
      var flag := flagFactory.CreateFlag(team, service, draws[n]);
      history := history + [Steps.Planted(flag.data, flag.name, team, service, clock)];
      planting := planting + {flag.data};
      OnFlagCreated(flag, clock);
    }

    /** The inner loop: one flag of `service` for every team, from the draws that start at `n`. */
    method PlantRow(service: string, draws: seq<Draws>, n: nat, ghost choices: seq<(string, string)>,
                    ghost rest: seq<(string, string)>)
      returns (n': nat)
      requires n <= |draws| == |choices| && |choices| - n == |Steps.Row(service, config.teams) + rest|
      requires Settle(draws[n..], choices[n..])
      modifies this, flagFactory
      ensures clock == old(clock)
      ensures n' == n + |config.teams| <= |choices| && Settle(draws[n'..], choices[n'..])
      ensures |choices| - n' == |rest|
      ensures Steps.PlantAll(View(), rest, choices[n'..])
           == Steps.PlantAll(old(View()), Steps.Row(service, config.teams) + rest, choices[n..])
    {
      hide Steps.PlantAll, Settle;
      ghost var row := Steps.Row(service, config.teams);
      ghost var goal := Steps.PlantAll(View(), row + rest, choices[n..]);
      var j := 0;
      n' := n;
      assert row[0..] == row;
      while j < |config.teams|
        invariant j <= |config.teams| && n' == n + j <= |choices| && clock == old(clock)
        invariant |choices| - n' == |row[j..] + rest|
        invariant Settle(draws[n'..], choices[n'..])
        invariant goal == Steps.PlantAll(View(), row[j..] + rest, choices[n'..])
      {
        RowStep(View(), row, rest, j, choices, n');
        PlantOne(service, config.teams[j], draws, n', choices);
        j, n' := j + 1, n' + 1;
      }
      assert row[j..] + rest == rest;
    }

    static lemma RowStep(s: Steps.State, row: seq<(string, string)>, rest: seq<(string, string)>, j: nat,
                         choices: seq<(string, string)>, n: nat)
      requires j < |row| && n < |choices| && |choices| - n == |row[j..] + rest|
      ensures |choices| - (n + 1) == |row[j + 1..] + rest|
      ensures Steps.PlantAll(s, row[j..] + rest, choices[n..])
           == Steps.PlantAll(Steps.PlantOne(s, row[j], choices[n]), row[j + 1..] + rest, choices[n + 1..])
    {
      var left, pairs := choices[n..], row[j..] + rest;
      assert left[0] == choices[n] && left[1..] == choices[n + 1..];
      assert pairs[0] == row[j] && pairs[1..] == row[j + 1..] + rest;
    }

    /** `draws` are the random numbers of the round and `choices` what they settle on. */
    method PlantFlags(draws: seq<Draws>, ghost choices: seq<(string, string)>)
      requires |choices| == |Steps.Grid(config.services, config.teams)| && Settle(draws, choices)
      modifies this, flagFactory
      ensures View() == Steps.PlantFlags(config, old(View()), choices) && Steps.Fresh(old(View()), choices)
      ensures planting == old(planting) + (set i | 0 <= i < |choices| :: choices[i].1)
      ensures forall i :: 0 <= i < |choices| ==>
        && IsOver(choices[i].0, NAME_ALPHABET, flagFactory.nameLength)
        && IsOver(choices[i].1, DATA_ALPHABET, flagFactory.flagLength)
    {
      hide Steps.PlantAll, Steps.Fresh, Settle, IsOver;
      Settled(draws, choices);
      latestPlantTime := Some(clock);
      rounds := rounds + [clock];
      ghost var started := View();
      ghost var goal := Steps.PlantAll(started, Steps.Grid(config.services, config.teams), choices);
      var n, i := 0, 0;
      assert config.services[0..] == config.services && choices[0..] == choices && draws[0..] == draws;
      while i < |config.services|
        invariant i <= |config.services| && 0 <= n <= |choices|
        invariant |choices| - n == |Steps.Grid(config.services[i..], config.teams)|
        invariant Settle(draws[n..], choices[n..])
        invariant goal == Steps.PlantAll(View(), Steps.Grid(config.services[i..], config.teams), choices[n..])
      {
        assert config.services[i..][1..] == config.services[i + 1..];
        n := PlantRow(config.services[i], draws, n, choices, Steps.Grid(config.services[i + 1..], config.teams));
        i := i + 1;
      }
      NoneLeft(View(), choices[n..]);
      Origins.PlantingRuns(started, Steps.Grid(config.services, config.teams), choices);
    }

    static lemma NoneLeft(s: Steps.State, choices: seq<(string, string)>)
      requires choices == []
      ensures Steps.PlantAll(s, [], choices) == s
    {
    }

    lemma Settled(draws: seq<Draws>, choices: seq<(string, string)>)
      requires Settle(draws, choices)
      ensures |draws| == |choices| && Steps.Fresh(View(), choices)
      ensures forall i :: 0 <= i < |choices| ==>
        && IsOver(choices[i].0, NAME_ALPHABET, flagFactory.nameLength)
        && IsOver(choices[i].1, DATA_ALPHABET, flagFactory.flagLength)
    {
      SettledFresh(flagFactory.nameLength, flagFactory.flagLength, View(), View().names, View().datas, draws, choices);
    }

    /** The 'plant' listener: record whether the plant command succeeded. */
    method OnPlanted(id: string, status: Status)
      requires id in planting
      modifies this`planting, this`tasks, this`next
      ensures View() == Steps.OnPlanted(old(View()), id, status)
      ensures old(next) in tasks && (tasks[old(next)] == Steps.SetDelivered(id, true) <==> status == Exit(0))
    {
      planting := planting - {id};
      Issue(Steps.SetDelivered(id, status == Exit(0)));
    }

    method CheckFlags()
      modifies this`tasks, this`next
      ensures View() == Steps.CheckFlags(config, old(View()))
    {
      if latestPlantTime.Some? {
        var planted := latestPlantTime.value;
        if planted < clock - config.maxTime {
          Issue(Steps.FindUncaptured(planted, clock));
        }
      }
    }

    /** The find callback of CheckFlags: start a check for every document the cursor hands out. */
    method OnUncaptured(k: int, cursor: seq<string>)
      requires Steps.Enabled(config, View(), Steps.Apply(k, cursor)) && tasks[k].FindUncaptured?
      modifies this`tasks, this`next
      ensures View() == Steps.ApplyTask(old(View()), k, cursor)
    {
      var at := tasks[k].at;
      tasks := tasks - {k};
      ghost var goal := Steps.EnqueueChecks(View(), cursor, at);
      var i := 0;
      while i < |cursor|
        invariant i <= |cursor| && goal == Steps.EnqueueChecks(View(), cursor[i..], at)
      {
        assert cursor[i..][1..] == cursor[i + 1..];
        Issue(Steps.Checking(cursor[i], at));
        i := i + 1;
      }
    }

    /** The 'check' listener: record the combined result under the time the check was started. */
    method OnChecked(k: int, status: Status)
      requires k in tasks && tasks[k].Checking?
      modifies this`tasks, this`next
      ensures View() == Steps.OnChecked(old(View()), k, status)
      ensures var t := old(tasks[k]);
              && old(next) in tasks
              && (tasks[old(next)] == Steps.PushCheck(t.id, Check(t.at, true)) <==> status == Exit(0))
    {
      var t := tasks[k];
      tasks := tasks - {k};
      Issue(Steps.PushCheck(t.id, Check(t.at, status == Exit(0))));
    }

    /** A TEAM line. The reply is 0 when the team is taken on, 1 when one is set already, 2 when unknown. */
    method OnTeam(conn: nat, name: string) returns (reply: nat)
      requires conn in teamOf
      modifies this`teamOf
      ensures View() == Steps.OnTeam(config, old(View()), conn, name)
      ensures reply == 0 ==> teamOf == old(teamOf)[conn := Some(name)]
      ensures reply == 0 <==> teamOf != old(teamOf)
      ensures reply == 1 <==> old(teamOf[conn]) != None
      ensures reply in {0, 1, 2} && (reply == 2 <==> old(teamOf[conn]) == None && name !in config.teams)
    {
      if teamOf[conn] == None {
        if name !in config.teams {
          reply := 2;
        } else {
          teamOf := teamOf[conn := Some(name)];
          reply := 0;
        }
      } else {
        reply := 1;
      }
    }

    /** A FLAG line. The reply is 3 when no team is set; otherwise the answer comes from the lookup. */
    method OnFlag(conn: nat, id: string) returns (reply: Option<nat>)
      requires conn in teamOf
      modifies this`tasks, this`next
      ensures View() == Steps.OnFlagLine(old(View()), conn, id)
      ensures reply == if teamOf[conn] == None then Some(3) else None
    {
      if teamOf[conn] == None {
        reply := Some(3);
      } else {
        Issue(Steps.FindFlag(teamOf[conn].value, id));
        reply := None;
      }
    }

    /**
     The findOne callback. Replies 6, 9, 8 and 7 turn the flag down, tested in that order; without a
     reply the capture is on its way and is confirmed once it is stored.
     */
    method OnFound(k: int) returns (reply: Option<nat>)
      requires k in tasks && tasks[k].Found?
      modifies this`tasks, this`next
      ensures View() == Steps.OnFound(old(View()), k)
      ensures var t := old(tasks[k]);
              && (reply == None <==> Steps.Accepts(old(View()), t.team, t.snapshot))
              && (reply == Some(6) <==> t.snapshot == None)
              && (reply == Some(9) <==> t.snapshot.Some? && t.snapshot.value.team == t.team)
              && (reply == Some(8) <==> t.snapshot.Some? && t.snapshot.value.team != t.team
                                        && exists c :: c in t.snapshot.value.captures && c.team == t.team)
              && (reply == Some(7) ==> Some(t.snapshot.value.time) != latestPlantTime)
              && reply in {None, Some(6), Some(7), Some(8), Some(9)}
    {
      var t := tasks[k];
      tasks := tasks - {k};
      match t.snapshot
      case None => reply := Some(6);
      case Some(d) =>
        if d.team == t.team {
          reply := Some(9);
        } else if exists i | 0 <= i < |d.captures| :: d.captures[i].team == t.team {
          reply := Some(8);
        } else if latestPlantTime != Some(d.time) {
          reply := Some(7);
        } else {
          Issue(Steps.PushCapture(t.team, t.id, clock));
          reply := None;
        }
    }
  }
}
