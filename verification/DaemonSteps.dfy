/**
 The game daemon as a step system. Every asynchronous piece of work the daemon has started is a
 task under a ticket number; tickets are handed out in issue order. A step is a timer, a command or
 a lookup that completes, a line from a player, or the database carrying out one task.
 */
module DaemonSteps {
  import opened GameTypes
  import opened Sequences

  datatype Config = Config(teams: seq<string>, services: seq<string>, maxTime: int)

  /** What `createFlag` hands out, together with the time of its round. */
  datatype Planted = Planted(id: string, name: string, team: string, service: string, time: int)

  datatype Task =
    | Save(doc: Doc)
    | SetDelivered(id: string, ok: bool)
    | FindUncaptured(planted: int, at: int)
    | Checking(id: string, at: int)
    | PushCheck(id: string, check: Check)
    | FindFlag(team: string, id: string)
    | Found(team: string, id: string, snapshot: Option<Doc>)
    | PushCapture(team: string, id: string, at: int)

  /** The writes the database has carried out, oldest first. */
  datatype Write =
    | Created(id: string, team: string)
    | PlantResult(id: string, ok: bool)
    | CheckResult(id: string, ok: bool)
    | Captured(id: string, team: string)
    | Solved(rank: Rank)

  datatype State = State(
    now: int,
    latest: Option<int>,                    // latestPlantTime
    rounds: seq<int>,                       // history: the plant times so far
    history: seq<Planted>,                  // history: the flags created so far
    names: set<string>, datas: set<string>, // nameToFlag and flags of the factory
    planting: set<string>,                  // plant commands still running, by flag data
    tasks: map<int, Task>, next: int,
    connections: map<nat, Option<string>>,  // the `team` variable of each connection
    db: map<string, Doc>, challenges: map<string, Challenge>,
    trace: seq<Write>)                      // history: the writes carried out

  datatype Event =
    | Tick(t: int)
    | Plant(choices: seq<(string, string)>)
    | PlantDone(id: string, status: Status)
    | CheckRound
    | CheckDone(k: int, status: Status)
    | Connect(conn: nat)
    | TeamLine(conn: nat, name: string)
    | FlagLine(conn: nat, id: string)
    | LookupDone(k: int)
    | Apply(k: int, cursor: seq<string>)
    | Solve(name: string, rank: Rank)

  const INITIAL: State :=
    State(0, None, [], [], {}, {}, {}, map[], 0, map[], map[], map[], [])

  ghost predicate ValidConfig(c: Config) {
    Distinct(c.teams) && Distinct(c.services)
  }

  /** The (service, team) pairs in the order the two nested loops of `plantFlags_` visit them. */
  function Grid(services: seq<string>, teams: seq<string>): seq<(string, string)> {
    if services == [] then [] else Row(services[0], teams) + Grid(services[1..], teams)
  }

  function Row(service: string, teams: seq<string>): seq<(string, string)> {
    seq(|teams|, i requires 0 <= i < |teams| => (service, teams[i]))
  }

  predicate IsDbOp(t: Task) {
    !t.Checking? && !t.Found?
  }

  /** The (team, flag) a submission task is about. */
  function Submission(t: Task): Option<(string, string)> {
    match t
    case FindFlag(team, id) => Some((team, id))
    case Found(team, id, _) => Some((team, id))
    case PushCapture(team, id, _) => Some((team, id))
    case _ => None
  }

  function Enqueue(s: State, t: Task): State {
    s.(tasks := s.tasks[s.next := t], next := s.next + 1)
  }

  function EnqueueChecks(s: State, ids: seq<string>, at: int): State
    decreases |ids|
  {
    if ids == [] then s else EnqueueChecks(Enqueue(s, Checking(ids[0], at)), ids[1..], at)
  }

  function Finish(s: State, k: int): State {
    s.(tasks := s.tasks - {k})
  }

  // ----- plantFlags_, onFlag_ and the 'plant' listener

  function NewDoc(p: Planted): Doc {
    Doc(p.id, p.name, p.team, p.service, [], [], false, p.time)
  }

  function PlantOne(s: State, pair: (string, string), choice: (string, string)): State {
    var p := Planted(choice.1, choice.0, pair.1, pair.0, s.now);
    Enqueue(s.(names := s.names + {p.name}, datas := s.datas + {p.id},
               planting := s.planting + {p.id}, history := s.history + [p]),
            Save(NewDoc(p)))
  }

  function PlantAll(s: State, pairs: seq<(string, string)>, choices: seq<(string, string)>): State
    requires |pairs| == |choices|
    decreases |pairs|
  {
    if pairs == [] then s
    else PlantAll(PlantOne(s, pairs[0], choices[0]), pairs[1..], choices[1..])
  }

  function PlantFlags(c: Config, s: State, choices: seq<(string, string)>): State
    requires |choices| == |Grid(c.services, c.teams)|
  {
    PlantAll(s.(latest := Some(s.now), rounds := s.rounds + [s.now]), Grid(c.services, c.teams), choices)
  }

  /** The strings `_createUniqueRandomString` may return for the flags of one round. */
  ghost predicate Fresh(s: State, choices: seq<(string, string)>) {
    && (forall i :: 0 <= i < |choices| ==> choices[i].0 !in s.names && choices[i].1 !in s.datas)
    && (forall i, j :: 0 <= i < j < |choices| ==> choices[i].0 != choices[j].0 && choices[i].1 != choices[j].1)
  }

  function OnPlanted(s: State, id: string, status: Status): State {
    Enqueue(s.(planting := s.planting - {id}), SetDelivered(id, status == Exit(0)))
  }

  // ----- checkFlags_ and the 'check' listener

  function CheckFlags(c: Config, s: State): State {
    if s.latest.Some? && s.latest.value < s.now - c.maxTime
    then Enqueue(s, FindUncaptured(s.latest.value, s.now))
    else s
  }

  function OnChecked(s: State, k: int, status: Status): State
    requires k in s.tasks && s.tasks[k].Checking?
  {
    var t := s.tasks[k];
    Enqueue(Finish(s, k), PushCheck(t.id, Check(t.at, status == Exit(0))))
  }

  // ----- the team and flag listeners of onRestore_

  function OnTeam(c: Config, s: State, conn: nat, name: string): State
    requires conn in s.connections
  {
    if s.connections[conn] == None && name in c.teams
    then s.(connections := s.connections[conn := Some(name)])
    else s
  }

  function OnFlagLine(s: State, conn: nat, id: string): State
    requires conn in s.connections
  {
    match s.connections[conn]
    case None => s
    case Some(team) => Enqueue(s, FindFlag(team, id))
  }

  /** The findOne callback accepts the capture. */
  predicate Accepts(s: State, team: string, doc: Option<Doc>) {
    match doc
    case None => false
    case Some(d) =>
      && d.team != team
      && (forall i | 0 <= i < |d.captures| :: d.captures[i].team != team)
      && s.latest == Some(d.time)
  }

  function OnFound(s: State, k: int): State
    requires k in s.tasks && s.tasks[k].Found?
  {
    var t := s.tasks[k];
    if Accepts(s, t.team, t.snapshot) then Enqueue(Finish(s, k), PushCapture(t.team, t.id, s.now)) else Finish(s, k)
  }

  // ----- the database

  function Uncaptured(s: State, planted: int): set<string> {
    set id | id in s.db && s.db[id].time == planted && s.db[id].captures == []
  }

  /** A find cursor hands out the matching documents in some order, each one once. */
  ghost predicate IsCursor(s: State, planted: int, cursor: seq<string>) {
    Distinct(cursor) && forall id :: id in cursor <==> id in Uncaptured(s, planted)
  }

  function Log(s: State, w: Write): State {
    s.(trace := s.trace + [w])
  }

  function Change(s: State, id: string, f: Doc -> Doc): State {
    if id in s.db then s.(db := s.db[id := f(s.db[id])]) else s
  }

  function Deliver(ok: bool): Doc -> Doc {
    (d: Doc) => d.(delivered := ok)
  }

  function AddCheck(check: Check): Doc -> Doc {
    (d: Doc) => d.(checks := d.checks + [check])
  }

  function AddCapture(capture: Capture): Doc -> Doc {
    (d: Doc) => d.(captures := d.captures + [capture])
  }

  function ApplyTask(s: State, k: int, cursor: seq<string>): State
    requires k in s.tasks && IsDbOp(s.tasks[k])
  {
    var done := Finish(s, k);
    match s.tasks[k]
    case Save(doc) => Log(done.(db := s.db[doc.id := doc]), Created(doc.id, doc.team))
    case SetDelivered(id, ok) => Log(Change(done, id, Deliver(ok)), PlantResult(id, ok))
    case PushCheck(id, check) => Log(Change(done, id, AddCheck(check)), CheckResult(id, check.result))
    case PushCapture(team, id, at) => Log(Change(done, id, AddCapture(Capture(team, at))), Captured(id, team))
    case FindUncaptured(_, at) => EnqueueChecks(done, cursor, at)
    case FindFlag(team, id) =>
      s.(tasks := s.tasks[k := Found(team, id, if id in s.db then Some(s.db[id]) else None)])
  }

  /** One more rank on a challenge's document, which is created when there is none yet. */
  function PushRank(challenges: map<string, Challenge>, name: string, rank: Rank): map<string, Challenge> {
    challenges[name := Challenge(name, (if name in challenges then challenges[name].rank else []) + [rank])]
  }

  // ----- runs

  ghost predicate Enabled(c: Config, s: State, e: Event) {
    match e
    case Tick(t) => s.now <= t
    case Plant(choices) => |choices| == |Grid(c.services, c.teams)| && Fresh(s, choices)
    case PlantDone(id, _) => id in s.planting
    case CheckRound => true
    case CheckDone(k, _) => k in s.tasks && s.tasks[k].Checking?
    case Connect(conn) => conn !in s.connections
    case TeamLine(conn, _) => conn in s.connections
    case FlagLine(conn, _) => conn in s.connections
    case LookupDone(k) => k in s.tasks && s.tasks[k].Found?
    case Apply(k, cursor) =>
      && k in s.tasks && IsDbOp(s.tasks[k])
      && (s.tasks[k].FindUncaptured? ==> IsCursor(s, s.tasks[k].planted, cursor))
    case Solve(_, _) => true
  }

  function Step(c: Config, s: State, e: Event): State
    requires Enabled(c, s, e)
  {
    match e
    case Tick(t) => s.(now := t)
    case Plant(choices) => PlantFlags(c, s, choices)
    case PlantDone(id, status) => OnPlanted(s, id, status)
    case CheckRound => CheckFlags(c, s)
    case CheckDone(k, status) => OnChecked(s, k, status)
    case Connect(conn) => s.(connections := s.connections[conn := None])
    case TeamLine(conn, name) => OnTeam(c, s, conn, name)
    case FlagLine(conn, id) => OnFlagLine(s, conn, id)
    case LookupDone(k) => OnFound(s, k)
    case Apply(k, cursor) => ApplyTask(s, k, cursor)
    case Solve(name, rank) => Log(s.(challenges := PushRank(s.challenges, name, rank)), Solved(rank))
  }

  /** Which interleavings a run allows. */
  datatype Discipline =
    | Free          // every interleaving
    | IssueOrder    // the database carries out operations in the order they were issued
    | NoOvertaking  // no check round's query overtakes an older capture of a flag it finds
    | FirstAccepts  // a capture is accepted only for a team that is not about to be on the flag's list
    | SavedFirst    // the success of a plant command is recorded only once the flag's document is stored
    | OneInFlight   // a team never has two submissions of one flag under way

  /** No capture of a flag in the query's answer is older than the query and still waits for the database. */
  predicate InTime(s: State, k: int, cursor: seq<string>)
    requires k in s.tasks && s.tasks[k].FindUncaptured?
  {
    forall j | j in s.tasks && s.tasks[j].PushCapture? && s.tasks[j].id in cursor :: s.tasks[k].at <= s.tasks[j].at
  }

  /** If the lookup is accepted, its team is not on the flag's list by now and no push for it is waiting. */
  predicate FirstAccept(s: State, k: int)
    requires k in s.tasks && s.tasks[k].Found?
  {
    var t := s.tasks[k];
    Accepts(s, t.team, t.snapshot) ==>
      && (t.id in s.db ==> forall i | 0 <= i < |s.db[t.id].captures| :: s.db[t.id].captures[i].team != t.team)
      && forall j | j in s.tasks && s.tasks[j].PushCapture? :: Submission(s.tasks[j]) != Some((t.team, t.id))
  }

  ghost predicate Allowed(d: Discipline, s: State, e: Event) {
    match d
    case Free => true
    case IssueOrder => e.Apply? ==> forall j :: j in s.tasks && IsDbOp(s.tasks[j]) ==> e.k <= j
    case NoOvertaking =>
      e.Apply? && e.k in s.tasks && s.tasks[e.k].FindUncaptured? ==> InTime(s, e.k, e.cursor)
    case FirstAccepts => e.LookupDone? && e.k in s.tasks && s.tasks[e.k].Found? ==> FirstAccept(s, e.k)
    case SavedFirst =>
      e.Apply? && e.k in s.tasks && s.tasks[e.k].SetDelivered? && s.tasks[e.k].ok ==> s.tasks[e.k].id in s.db
    case OneInFlight =>
      e.FlagLine? && e.conn in s.connections && s.connections[e.conn].Some? ==>
        forall k :: k in s.tasks ==> Submission(s.tasks[k]) != Some((s.connections[e.conn].value, e.id))
  }

  ghost predicate Run(c: Config, d: Discipline, s: State, es: seq<Event>)
    decreases |es|
  {
    es == [] ||
    (Enabled(c, s, es[0]) && Allowed(d, s, es[0]) && Run(c, d, Step(c, s, es[0]), es[1..]))
  }

  /** The state a run ends in. */
  ghost function After(c: Config, d: Discipline, s: State, es: seq<Event>): State
    requires Run(c, d, s, es)
    decreases |es|
  {
    if es == [] then s else After(c, d, Step(c, s, es[0]), es[1..])
  }

  ghost predicate Reaches(c: Config, d: Discipline, s: State, s': State) {
    exists es :: Run(c, d, s, es) && After(c, d, s, es) == s'
  }

  lemma RunCons(c: Config, d: Discipline, s: State, e: Event, es: seq<Event>)
    requires Enabled(c, s, e) && Allowed(d, s, e) && Run(c, d, Step(c, s, e), es)
    ensures Run(c, d, s, [e] + es) && After(c, d, s, [e] + es) == After(c, d, Step(c, s, e), es)
  {
    assert ([e] + es)[1..] == es;
  }

  lemma ReachesStep(c: Config, d: Discipline, s: State, e: Event)
    requires Enabled(c, s, e) && Allowed(d, s, e)
    ensures Reaches(c, d, s, Step(c, s, e))
  {
    assert [e][1..] == [];
    assert Run(c, d, Step(c, s, e), []);
    assert After(c, d, Step(c, s, e), [e][1..]) == Step(c, s, e);
    assert Run(c, d, s, [e]) && After(c, d, s, [e]) == Step(c, s, e);
  }

  lemma {:induction false} RunConcat(c: Config, d: Discipline, s: State, es: seq<Event>, es': seq<Event>)
    requires Run(c, d, s, es) && Run(c, d, After(c, d, s, es), es')
    ensures Run(c, d, s, es + es') && After(c, d, s, es + es') == After(c, d, After(c, d, s, es), es')
    decreases |es|
  {
    if es == [] {
      assert es + es' == es';
    } else {
      RunConcat(c, d, Step(c, s, es[0]), es[1..], es');
      assert (es + es')[1..] == es[1..] + es';
    }
  }

  lemma ReachesTrans(c: Config, d: Discipline, s: State, s': State, s'': State)
    requires Reaches(c, d, s, s') && Reaches(c, d, s', s'')
    ensures Reaches(c, d, s, s'')
  {
    var es :| Run(c, d, s, es) && After(c, d, s, es) == s';
    var es' :| Run(c, d, s', es') && After(c, d, s', es') == s'';
    RunConcat(c, d, s, es, es');
  }

  lemma ReachesTwoSteps(c: Config, d: Discipline, s: State, e: Event, e': Event)
    requires Enabled(c, s, e) && Allowed(d, s, e)
    requires Enabled(c, Step(c, s, e), e') && Allowed(d, Step(c, s, e), e')
    ensures Reaches(c, d, s, Step(c, Step(c, s, e), e'))
  {
    ReachesStep(c, d, s, e);
    ReachesStep(c, d, Step(c, s, e), e');
    ReachesTrans(c, d, s, Step(c, s, e), Step(c, Step(c, s, e), e'));
  }
}
