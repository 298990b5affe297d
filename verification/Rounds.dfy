/** Every plant round gives each team one flag for each service, and no two flags are alike. */
module Rounds {
  import opened GameTypes
  import opened DaemonSteps
  import opened Sequences
  import opened Ledger

  function IsFor(p: Planted, team: string, service: string, time: int): bool {
    p.team == team && p.service == service && p.time == time
  }

  /** How many flags a team got for a service in the rounds of that time. */
  function FlagsFor(history: seq<Planted>, team: string, service: string, time: int): nat {
    if history == [] then 0
    else FlagsFor(history[..|history| - 1], team, service, time)
         + if IsFor(history[|history| - 1], team, service, time) then 1 else 0
  }

  function Times(pairs: seq<(string, string)>, pair: (string, string)): nat {
    if pairs == [] then 0 else Times(pairs[1..], pair) + if pairs[0] == pair then 1 else 0
  }

  function RoundsAt(rounds: seq<int>, time: int): nat {
    if rounds == [] then 0
    else RoundsAt(rounds[..|rounds| - 1], time) + if rounds[|rounds| - 1] == time then 1 else 0
  }

  // ----- the nested loops visit every (service, team) pair once

  lemma {:induction false} TimesConcat(a: seq<(string, string)>, b: seq<(string, string)>, pair: (string, string))
    ensures Times(a + b, pair) == Times(a, pair) + Times(b, pair)
    decreases |a|
  {
    if a == [] {
      assert a + b == b;
    } else {
      TimesConcat(a[1..], b, pair);
      assert (a + b)[1..] == a[1..] + b;
    }
  }

  lemma {:induction false} RowOnce(service: string, teams: seq<string>, pair: (string, string))
    requires Distinct(teams)
    ensures Times(Row(service, teams), pair) == if pair.0 == service && pair.1 in teams then 1 else 0
    decreases |teams|
  {
    if teams != [] {
      assert forall i :: 0 <= i < |teams[1..]| ==> teams[1..][i] == teams[i + 1];
      assert Row(service, teams)[1..] == Row(service, teams[1..]);
      RowOnce(service, teams[1..], pair);
      assert pair.1 in teams <==> pair.1 == teams[0] || pair.1 in teams[1..];
      assert teams[0] !in teams[1..];
    }
  }

  lemma {:induction false} GridOnce(services: seq<string>, teams: seq<string>, pair: (string, string))
    requires Distinct(services) && Distinct(teams)
    ensures Times(Grid(services, teams), pair) == if pair.0 in services && pair.1 in teams then 1 else 0
    decreases |services|
  {
    if services != [] {
      assert forall i :: 0 <= i < |services[1..]| ==> services[1..][i] == services[i + 1];
      TimesConcat(Row(services[0], teams), Grid(services[1..], teams), pair);
      RowOnce(services[0], teams, pair);
      GridOnce(services[1..], teams, pair);
      assert services[0] !in services[1..];
    }
  }

  // ----- the invariant

  ghost predicate Unlike(history: seq<Planted>) {
    forall i, j :: 0 <= i < j < |history| ==> history[i].id != history[j].id && history[i].name != history[j].name
  }

  function Identity(d: Doc): Planted {
    Planted(d.id, d.name, d.team, d.service, d.time)
  }

  predicate Describes(p: Planted, d: Doc) {
    p == Identity(d)
  }

  ghost predicate Saved(s: State, p: Planted) {
    p.id in s.db && Describes(p, s.db[p.id])
  }

  ghost predicate ToSave(s: State, p: Planted) {
    exists k :: k in s.tasks && s.tasks[k] == Save(NewDoc(p))
  }

  ghost predicate FromHistory(s: State, d: Doc) {
    exists i :: 0 <= i < |s.history| && Describes(s.history[i], d)
  }

  ghost predicate Kept(s: State) {
    && Unlike(s.history)
    && (forall i :: 0 <= i < |s.history| ==> s.history[i].id in s.datas && s.history[i].name in s.names)
    && (forall i :: 0 <= i < |s.history| ==> Saved(s, s.history[i]) || ToSave(s, s.history[i]))
    && (forall id :: id in s.db ==> FromHistory(s, s.db[id]))
    && (forall k :: k in s.tasks && s.tasks[k].Save? ==> FromHistory(s, s.tasks[k].doc))
  }

  ghost predicate Counted(c: Config, history: seq<Planted>, rounds: seq<int>) {
    forall team, service, time :: team in c.teams && service in c.services ==>
      FlagsFor(history, team, service, time) == RoundsAt(rounds, time)
  }

  // ----- planting

  lemma PlantOneKeeps(s: State, pair: (string, string), choice: (string, string))
    requires Once(s) && Kept(s) && choice.0 !in s.names && choice.1 !in s.datas
    ensures Kept(PlantOne(s, pair, choice))
  {
    var s' := PlantOne(s, pair, choice);
    forall i | 0 <= i < |s'.history| ensures Saved(s', s'.history[i]) || ToSave(s', s'.history[i]) {
      if i < |s.history| {
        if ToSave(s, s.history[i]) {
          var k :| k in s.tasks && s.tasks[k] == Save(NewDoc(s.history[i]));
          assert s'.tasks[k] == s.tasks[k];
        }
      } else {
        assert s'.tasks[s.next] == Save(NewDoc(s'.history[i]));
      }
    }
    forall d | FromHistory(s, d) ensures FromHistory(s', d) {
      var i :| 0 <= i < |s.history| && Describes(s.history[i], d);
      assert s'.history[i] == s.history[i];
    }
    assert Describes(s'.history[|s.history|], s'.tasks[s.next].doc);
  }

  lemma {:induction false} PlantAllKeeps(s: State, pairs: seq<(string, string)>, choices: seq<(string, string)>)
    requires |pairs| == |choices| && Once(s) && Kept(s) && Fresh(s, choices)
    ensures Kept(PlantAll(s, pairs, choices))
    decreases |pairs|
  {
    if pairs != [] {
      PlantOneKeepsOnce(s, pairs[0], choices[0]);
      PlantOneKeeps(s, pairs[0], choices[0]);
      PlantAllKeeps(PlantOne(s, pairs[0], choices[0]), pairs[1..], choices[1..]);
    }
  }

  lemma {:induction false} PlantAllCounts(s: State, pairs: seq<(string, string)>, choices: seq<(string, string)>,
                                          team: string, service: string, time: int)
    requires |pairs| == |choices|
    ensures var s' := PlantAll(s, pairs, choices);
            && FlagsFor(s'.history, team, service, time)
               == FlagsFor(s.history, team, service, time) + (if time == s.now then Times(pairs, (service, team)) else 0)
            && s'.rounds == s.rounds
    decreases |pairs|
  {
    if pairs != [] {
      var s1 := PlantOne(s, pairs[0], choices[0]);
      assert s1.history[..|s1.history| - 1] == s.history;
      PlantAllCounts(s1, pairs[1..], choices[1..], team, service, time);
    }
  }

  lemma PlantCounts(c: Config, s: State, choices: seq<(string, string)>)
    requires ValidConfig(c) && Counted(c, s.history, s.rounds) && |choices| == |Grid(c.services, c.teams)|
    ensures Counted(c, PlantFlags(c, s, choices).history, PlantFlags(c, s, choices).rounds)
  {
    var s' := PlantFlags(c, s, choices);
    var started := s.(latest := Some(s.now), rounds := s.rounds + [s.now]);
    assert started.rounds[..|started.rounds| - 1] == s.rounds;
    forall team, service, time | team in c.teams && service in c.services
      ensures FlagsFor(s'.history, team, service, time) == RoundsAt(s'.rounds, time)
    {
      PlantAllCounts(started, Grid(c.services, c.teams), choices, team, service, time);
      GridOnce(c.services, c.teams, (service, team));
    }
  }

  // ----- all other steps

  /** No flag is created, none disappears, and no document changes what identifies it. */
  ghost predicate Settled(s: State, s': State) {
    && s'.history == s.history && s'.rounds == s.rounds && s'.datas == s.datas && s'.names == s.names
    && s'.db.Keys == s.db.Keys
    && (forall k :: k in s.tasks && s.tasks[k].Save? ==> k in s'.tasks && s'.tasks[k] == s.tasks[k])
    && (forall k :: k in s'.tasks && s'.tasks[k].Save? ==> k in s.tasks && s'.tasks[k] == s.tasks[k])
    && (forall id :: id in s.db ==> Identity(s'.db[id]) == Identity(s.db[id]))
  }

  lemma SettledKeeps(s: State, s': State)
    requires Kept(s) && Settled(s, s')
    ensures Kept(s')
  {
    forall i | 0 <= i < |s'.history| ensures Saved(s', s'.history[i]) || ToSave(s', s'.history[i]) {
      if Saved(s, s.history[i]) {
        SameIdentity(s, s', s.history[i].id);
      } else {
        var k :| k in s.tasks && s.tasks[k] == Save(NewDoc(s.history[i]));
        assert s'.tasks[k] == s.tasks[k];
      }
    }
    forall id | id in s'.db ensures FromHistory(s', s'.db[id]) {
      SameIdentity(s, s', id);
      assert FromHistory(s, s.db[id]);
      var i :| 0 <= i < |s.history| && Describes(s.history[i], s.db[id]);
      assert Describes(s'.history[i], s'.db[id]);
    }
    forall k | k in s'.tasks && s'.tasks[k].Save? ensures FromHistory(s', s'.tasks[k].doc) {
      assert FromHistory(s, s.tasks[k].doc);
      var i :| 0 <= i < |s.history| && Describes(s.history[i], s.tasks[k].doc);
      assert Describes(s'.history[i], s'.tasks[k].doc);
    }
  }

  lemma SameIdentity(s: State, s': State, id: string)
    requires Settled(s, s') && id in s.db
    ensures forall p :: Describes(p, s.db[id]) <==> Describes(p, s'.db[id])
  {
    assert Identity(s.db[id]) == Identity(s'.db[id]);
  }

  lemma {:induction false} ChecksSettle(s: State, ids: seq<string>, at: int)
    requires forall k :: k in s.tasks ==> k < s.next
    ensures Settled(s, EnqueueChecks(s, ids, at))
    decreases |ids|
  {
    if ids != [] {
      ChecksSettle(Enqueue(s, Checking(ids[0], at)), ids[1..], at);
    }
  }

  lemma SaveFindsHistory(s: State, k: int, i: int)
    requires Once(s) && Kept(s) && k in s.tasks && s.tasks[k].Save? && 0 <= i < |s.history|
    ensures Saved(ApplyTask(s, k, []), s.history[i]) || ToSave(ApplyTask(s, k, []), s.history[i])
  {
    var doc, s' := s.tasks[k].doc, ApplyTask(s, k, []);
    assert FromHistory(s, doc);
    if !Saved(s, s.history[i]) {
      var j :| j in s.tasks && s.tasks[j] == Save(NewDoc(s.history[i]));
      if j != k {
        assert j in s'.tasks && s'.tasks[j] == s.tasks[j];
      }
    }
  }

  lemma SaveKeeps(s: State, k: int)
    requires Once(s) && Kept(s) && k in s.tasks && s.tasks[k].Save?
    ensures Kept(ApplyTask(s, k, []))
  {
    var s' := ApplyTask(s, k, []);
    forall i | 0 <= i < |s'.history| ensures Saved(s', s'.history[i]) || ToSave(s', s'.history[i]) {
      SaveFindsHistory(s, k, i);
    }
    forall d | FromHistory(s, d) ensures FromHistory(s', d) {
      var i :| 0 <= i < |s.history| && Describes(s.history[i], d);
      assert Describes(s'.history[i], d);
    }
    assert FromHistory(s, s.tasks[k].doc);
  }

  lemma ChangeSettles(s: State, k: int, id: string, f: Doc -> Doc, w: Write)
    requires k in s.tasks && !s.tasks[k].Save? && (id in s.db ==> Identity(f(s.db[id])) == Identity(s.db[id]))
    ensures Settled(s, Log(Change(Finish(s, k), id, f), w))
  {
    hide Identity;
  }

  lemma ApplySettles(s: State, k: int, cursor: seq<string>)
    requires Once(s) && k in s.tasks && IsDbOp(s.tasks[k]) && !s.tasks[k].Save?
    ensures Settled(s, ApplyTask(s, k, cursor))
  {
    assert forall j :: j in s.tasks ==> j < s.next;
    hide Once, Settled;
    match s.tasks[k]
    case SetDelivered(id, ok) => ChangeSettles(s, k, id, Deliver(ok), PlantResult(id, ok));
    case PushCheck(id, check) => ChangeSettles(s, k, id, AddCheck(check), CheckResult(id, check.result));
    case PushCapture(team, id, at) => ChangeSettles(s, k, id, AddCapture(Capture(team, at)), Captured(id, team));
    case FindUncaptured(_, at) =>
      ChecksSettle(Finish(s, k), cursor, at);
      FirstSettle(s, k, EnqueueChecks(Finish(s, k), cursor, at));
    case FindFlag(_, _) => AnswerSettles(s, k);
  }

  lemma FirstSettle(s: State, k: int, s': State)
    requires k in s.tasks && !s.tasks[k].Save? && Settled(Finish(s, k), s')
    ensures Settled(s, s')
  {
  }

  lemma AnswerSettles(s: State, k: int)
    requires k in s.tasks && s.tasks[k].FindFlag?
    ensures Settled(s, ApplyTask(s, k, []))
  {
  }

  lemma ApplyKeeps(s: State, k: int, cursor: seq<string>)
    requires Once(s) && Kept(s) && k in s.tasks && IsDbOp(s.tasks[k])
    ensures var s' := ApplyTask(s, k, cursor); Kept(s') && s'.history == s.history && s'.rounds == s.rounds
  {
    if s.tasks[k].Save? {
      SaveKeeps(s, k);
    } else {
      ApplySettles(s, k, cursor);
      SettledKeeps(s, ApplyTask(s, k, cursor));
    }
  }

  lemma EnqueueSettles(s: State, s': State, t: Task)
    requires s.next !in s.tasks && Settled(s, s') && s'.next == s.next && s.next !in s'.tasks && !t.Save?
    ensures Settled(s, Enqueue(s', t))
  {
  }

  lemma OtherStepSettles(c: Config, s: State, e: Event)
    requires Once(s) && Enabled(c, s, e) && !e.Plant? && !e.Apply?
    ensures Settled(s, Step(c, s, e))
  {
    assert s.next !in s.tasks;
    hide Once;
    match e
    case PlantDone(id, status) =>
      EnqueueSettles(s, s.(planting := s.planting - {id}), SetDelivered(id, status == Exit(0)));
    case CheckRound =>
      if s.latest.Some? { EnqueueSettles(s, s, FindUncaptured(s.latest.value, s.now)); }
    case CheckDone(k, status) =>
      EnqueueSettles(s, Finish(s, k), PushCheck(s.tasks[k].id, Check(s.tasks[k].at, status == Exit(0))));
    case FlagLine(conn, id) =>
      if s.connections[conn].Some? { EnqueueSettles(s, s, FindFlag(s.connections[conn].value, id)); }
    case LookupDone(k) =>
      EnqueueSettles(s, Finish(s, k), PushCapture(s.tasks[k].team, s.tasks[k].id, s.now));
    case _ =>
  }

  lemma StepKeeps(c: Config, s: State, e: Event)
    requires ValidConfig(c) && Once(s) && Kept(s) && Counted(c, s.history, s.rounds) && Enabled(c, s, e)
    ensures var s' := Step(c, s, e); Kept(s') && Counted(c, s'.history, s'.rounds)
  {
    if e.Plant? {
      PlantAllKeeps(s.(latest := Some(s.now), rounds := s.rounds + [s.now]), Grid(c.services, c.teams), e.choices);
      PlantCounts(c, s, e.choices);
    } else if e.Apply? {
      ApplyKeeps(s, e.k, e.cursor);
    } else {
      OtherStepSettles(c, s, e);
      SettledKeeps(s, Step(c, s, e));
    }
  }

  lemma {:induction false} RunKeeps(c: Config, d: Discipline, s: State, es: seq<Event>)
    requires ValidConfig(c) && Once(s) && Kept(s) && Counted(c, s.history, s.rounds) && Run(c, d, s, es)
    ensures var s' := After(c, d, s, es); Once(s') && Kept(s') && Counted(c, s'.history, s'.rounds)
    decreases |es|
  {
    if es != [] {
      StepKeepsOnce(c, s, es[0]);
      StepKeeps(c, s, es[0]);
      RunKeeps(c, d, Step(c, s, es[0]), es[1..]);
    }
  }

  // ----- the theorem

  /** A flag on record, or about to be. */
  ghost predicate OnRecord(s: State, d: Doc) {
    (d.id in s.db && s.db[d.id] == d) || exists k :: k in s.tasks && s.tasks[k] == Save(d)
  }

  ghost predicate FlagOf(s: State, d: Doc, team: string, service: string, time: int) {
    OnRecord(s, d) && d.team == team && d.service == service && d.time == time
  }

  lemma {:induction false} SomeFlag(history: seq<Planted>, team: string, service: string, time: int) returns (i: nat)
    requires FlagsFor(history, team, service, time) > 0
    ensures i < |history| && IsFor(history[i], team, service, time)
    decreases |history|
  {
    i := |history| - 1;
    if !IsFor(history[i], team, service, time) {
      i := SomeFlag(history[..i], team, service, time);
    }
  }

  lemma {:induction false} TwoFlags(history: seq<Planted>, team: string, service: string, time: int, i: nat, j: nat)
    requires i < j < |history|
    requires IsFor(history[i], team, service, time) && IsFor(history[j], team, service, time)
    ensures FlagsFor(history, team, service, time) >= 2
    decreases |history|
  {
    var n := |history| - 1;
    if j < n {
      TwoFlags(history[..n], team, service, time, i, j);
    } else {
      OneFlag(history[..n], team, service, time, i);
    }
  }

  lemma {:induction false} OneFlag(history: seq<Planted>, team: string, service: string, time: int, i: nat)
    requires i < |history| && IsFor(history[i], team, service, time)
    ensures FlagsFor(history, team, service, time) >= 1
    decreases |history|
  {
    if i < |history| - 1 {
      OneFlag(history[..|history| - 1], team, service, time, i);
    }
  }

  lemma OriginOf(s: State, d: Doc) returns (i: nat)
    requires Once(s) && Kept(s) && OnRecord(s, d)
    ensures i < |s.history| && Describes(s.history[i], d)
  {
    assert FromHistory(s, d);
    i :| 0 <= i < |s.history| && Describes(s.history[i], d);
  }

  lemma SameOrigin(s: State, d: Doc, d': Doc)
    requires Once(s) && Kept(s) && OnRecord(s, d) && OnRecord(s, d') && d.id == d'.id
    ensures d == d'
  {
  }

  /**
   A round whose plant time no other round shares gives every team exactly one flag for every
   service, in every later state.
   */
  lemma OneFlagEach(c: Config, d: Discipline, es: seq<Event>, team: string, service: string, time: int)
    requires ValidConfig(c) && Run(c, d, INITIAL, es)
    requires team in c.teams && service in c.services
    requires RoundsAt(After(c, d, INITIAL, es).rounds, time) == 1
    ensures var s := After(c, d, INITIAL, es);
            exists doc :: FlagOf(s, doc, team, service, time) &&
                          forall other :: FlagOf(s, other, team, service, time) ==> other == doc
  {
    RunKeeps(c, d, INITIAL, es);
    var s := After(c, d, INITIAL, es);
    var i := SomeFlag(s.history, team, service, time);
    var p := s.history[i];
    var doc := if p.id in s.db then s.db[p.id] else NewDoc(p);
    assert Saved(s, p) || ToSave(s, p);
    assert OnRecord(s, doc);
    assert FlagOf(s, doc, team, service, time);
    hide Once, Kept, Counted, Run, OnRecord;
    forall other | FlagOf(s, other, team, service, time) ensures other == doc {
      var j := OriginOf(s, other);
      if j < i { TwoFlags(s.history, team, service, time, j, i); }
      if i < j { TwoFlags(s.history, team, service, time, i, j); }
      SameOrigin(s, doc, other);
    }
  }

  /** No two flags of a run share their data or their name. */
  lemma FlagsUnlike(c: Config, d: Discipline, es: seq<Event>, a: Doc, b: Doc)
    requires ValidConfig(c) && Run(c, d, INITIAL, es)
    requires OnRecord(After(c, d, INITIAL, es), a) && OnRecord(After(c, d, INITIAL, es), b)
    ensures a != b ==> a.id != b.id && a.name != b.name
  {
    RunKeeps(c, d, INITIAL, es);
    var s := After(c, d, INITIAL, es);
    var i := OriginOf(s, a);
    var j := OriginOf(s, b);
    if a.id == b.id { SameOrigin(s, a, b); }
    assert i < j ==> s.history[i].name != s.history[j].name;
    assert j < i ==> s.history[j].name != s.history[i].name;
    if i == j { SameOrigin(s, a, b); }
  }
}
