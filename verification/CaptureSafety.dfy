/** What every recorded capture satisfies, under every interleaving. */
module CaptureSafety {
  import opened GameTypes
  import opened DaemonSteps
  import opened Ledger

  /** By a known team, not the owner, no earlier than the plant and no later than any later plant. */
  ghost predicate CaptureGood(c: Config, rounds: seq<int>, owner: string, planted: int, capture: Capture) {
    && capture.team in c.teams
    && capture.team != owner
    && planted <= capture.time
    && forall r :: r in rounds && planted < r ==> capture.time <= r
  }

  ghost predicate DocGood(c: Config, s: State, d: Doc) {
    forall i :: 0 <= i < |d.captures| ==>
      CaptureGood(c, s.rounds, d.team, d.time, d.captures[i]) && d.captures[i].time <= s.now
  }

  ghost predicate SameFlag(s: State, id: string, d: Doc) {
    id in s.db && s.db[id].team == d.team && s.db[id].time == d.time
  }

  ghost predicate TaskGood(c: Config, s: State, t: Task) {
    match t
    case FindFlag(team, _) => team in c.teams
    case Found(team, id, snapshot) => team in c.teams && (snapshot.Some? ==> SameFlag(s, id, snapshot.value))
    case PushCapture(team, id, at) =>
      id in s.db && CaptureGood(c, s.rounds, s.db[id].team, s.db[id].time, Capture(team, at)) && at <= s.now
    case _ => true
  }

  ghost predicate ClockGood(s: State) {
    && (s.rounds == [] <==> s.latest == None)
    && (s.latest.Some? ==> s.latest.value <= s.now && forall r :: r in s.rounds ==> r <= s.latest.value)
  }

  ghost predicate Good(c: Config, s: State) {
    && Once(s) && ClockGood(s)
    && (forall conn :: conn in s.connections && s.connections[conn].Some? ==> s.connections[conn].value in c.teams)
    && (forall id :: id in s.db ==> DocGood(c, s, s.db[id]))
    && (forall k :: k in s.tasks ==> TaskGood(c, s, s.tasks[k]))
  }

  lemma EnqueueGood(c: Config, s: State, t: Task)
    requires Good(c, s) && TaskGood(c, s, t) && !t.Save? && !t.SetDelivered?
    ensures Good(c, Enqueue(s, t))
  {
    EnqueueKeepsOnce(s, t);
  }

  lemma {:induction false} EnqueueChecksGood(c: Config, s: State, ids: seq<string>, at: int)
    requires Good(c, s)
    ensures Good(c, EnqueueChecks(s, ids, at))
    decreases |ids|
  {
    if ids != [] {
      EnqueueGood(c, s, Checking(ids[0], at));
      EnqueueChecksGood(c, Enqueue(s, Checking(ids[0], at)), ids[1..], at);
    }
  }

  lemma FinishGood(c: Config, s: State, k: int)
    requires Good(c, s)
    ensures Good(c, Finish(s, k))
  {
    FinishKeepsOnce(s, k);
  }

  /** A write to one document keeps every task good as long as the flag's owner and time stay. */
  lemma ChangeGood(c: Config, s: State, id: string, f: Doc -> Doc)
    requires Good(c, s) && Once(Change(s, id, f))
    requires id in s.db ==> var d := f(s.db[id]);
             d.team == s.db[id].team && d.time == s.db[id].time && DocGood(c, s, d)
    ensures Good(c, Change(s, id, f))
  {
    var s' := Change(s, id, f);
    forall k | k in s'.tasks ensures TaskGood(c, s', s'.tasks[k]) {
      assert TaskGood(c, s, s.tasks[k]);
    }
    forall i | i in s'.db ensures DocGood(c, s', s'.db[i]) {
      assert i != id ==> DocGood(c, s, s.db[i]);
    }
  }

  lemma SaveGood(c: Config, s: State, k: int)
    requires Good(c, s) && k in s.tasks && s.tasks[k].Save?
    ensures Good(c, Finish(s, k).(db := s.db[s.tasks[k].doc.id := s.tasks[k].doc]))
  {
    SaveKeepsOnce(s, k);
    var s' := Finish(s, k).(db := s.db[s.tasks[k].doc.id := s.tasks[k].doc]);
    forall j | j in s'.tasks ensures TaskGood(c, s', s'.tasks[j]) {
      assert TaskGood(c, s, s.tasks[j]);
    }
    forall i | i in s'.db ensures DocGood(c, s', s'.db[i]) {
      assert i in s.db ==> DocGood(c, s, s.db[i]);
    }
  }

  lemma NewRoundGood(c: Config, s: State)
    requires Good(c, s)
    ensures Good(c, s.(latest := Some(s.now), rounds := s.rounds + [s.now]))
  {
    var s' := s.(latest := Some(s.now), rounds := s.rounds + [s.now]);
    forall j | j in s'.tasks ensures TaskGood(c, s', s'.tasks[j]) {
      assert TaskGood(c, s, s.tasks[j]);
    }
    forall i | i in s'.db ensures DocGood(c, s', s'.db[i]) {
      assert DocGood(c, s, s.db[i]);
    }
  }

  lemma TickGood(c: Config, s: State, t: int)
    requires Good(c, s) && s.now <= t
    ensures Good(c, s.(now := t))
  {
    var s' := s.(now := t);
    forall j | j in s'.tasks ensures TaskGood(c, s', s'.tasks[j]) {
      assert TaskGood(c, s, s.tasks[j]);
    }
    forall i | i in s'.db ensures DocGood(c, s', s'.db[i]) {
      assert DocGood(c, s, s.db[i]);
    }
  }

  lemma PlantOneGood(c: Config, s: State, pair: (string, string), choice: (string, string))
    requires Good(c, s) && choice.1 !in s.datas
    ensures Good(c, PlantOne(s, pair, choice))
  {
    PlantOneKeepsOnce(s, pair, choice);
    var s' := PlantOne(s, pair, choice);
    forall j | j in s'.tasks ensures TaskGood(c, s', s'.tasks[j]) {
      assert j in s.tasks ==> TaskGood(c, s, s.tasks[j]);
    }
    forall i | i in s'.db ensures DocGood(c, s', s'.db[i]) {
      assert DocGood(c, s, s.db[i]);
    }
  }

  lemma {:induction false} PlantAllGood(c: Config, s: State, pairs: seq<(string, string)>, choices: seq<(string, string)>)
    requires |pairs| == |choices| && Good(c, s) && Fresh(s, choices)
    ensures Good(c, PlantAll(s, pairs, choices))
    decreases |pairs|
  {
    if pairs != [] {
      PlantOneGood(c, s, pairs[0], choices[0]);
      PlantAllGood(c, PlantOne(s, pairs[0], choices[0]), pairs[1..], choices[1..]);
    }
  }

  lemma PlantedGood(c: Config, s: State, id: string, status: Status)
    requires Good(c, s) && id in s.planting
    ensures Good(c, OnPlanted(s, id, status))
  {
    PlantedKeepsOnce(s, id, status);
    var s' := OnPlanted(s, id, status);
    forall j | j in s'.tasks ensures TaskGood(c, s', s'.tasks[j]) {
      assert j in s.tasks ==> TaskGood(c, s, s.tasks[j]);
    }
    forall i | i in s'.db ensures DocGood(c, s', s'.db[i]) {
      assert DocGood(c, s, s.db[i]);
    }
  }

  lemma AnswerGood(c: Config, s: State, k: int)
    requires Good(c, s) && k in s.tasks && s.tasks[k].FindFlag?
    ensures Good(c, ApplyTask(s, k, []))
  {
    var id := s.tasks[k].id;
    var snapshot := if id in s.db then Some(s.db[id]) else None;
    AnswerKeepsOnce(s, k, snapshot);
    var s' := ApplyTask(s, k, []);
    assert s' == s.(tasks := s.tasks[k := Found(s.tasks[k].team, id, snapshot)]);
    forall j | j in s'.tasks ensures TaskGood(c, s', s'.tasks[j]) {
      assert TaskGood(c, s, s.tasks[j]);
    }
    forall i | i in s'.db ensures DocGood(c, s', s'.db[i]) {
      assert DocGood(c, s, s.db[i]);
    }
  }

  lemma LookupGood(c: Config, s: State, k: int)
    requires Good(c, s) && k in s.tasks && s.tasks[k].Found?
    ensures Good(c, OnFound(s, k))
  {
    FinishGood(c, s, k);
    var t := s.tasks[k];
    assert TaskGood(c, s, t);
    if Accepts(s, t.team, t.snapshot) {
      EnqueueGood(c, Finish(s, k), PushCapture(t.team, t.id, s.now));
    }
  }

  lemma LogGood(c: Config, s: State, w: Write)
    requires Good(c, s)
    ensures Good(c, Log(s, w))
  {
    var s' := Log(s, w);
    forall j | j in s'.tasks ensures TaskGood(c, s', s'.tasks[j]) {
      assert TaskGood(c, s, s.tasks[j]);
    }
    forall i | i in s'.db ensures DocGood(c, s', s'.db[i]) {
      assert DocGood(c, s, s.db[i]);
    }
  }

  lemma DeliverGood(c: Config, s: State, id: string, ok: bool)
    requires Good(c, s) && Reported(s, id)
    ensures Good(c, Change(s, id, Deliver(ok)))
  {
    ChangeKeepsOnce(s, id, Deliver(ok));
    if id in s.db {
      assert DocGood(c, s, s.db[id]);
      ChangeGood(c, s, id, Deliver(ok));
    }
  }

  lemma CheckGood(c: Config, s: State, id: string, check: Check)
    requires Good(c, s)
    ensures Good(c, Change(s, id, AddCheck(check)))
  {
    ChangeKeepsOnce(s, id, AddCheck(check));
    if id in s.db {
      assert DocGood(c, s, s.db[id]);
      ChangeGood(c, s, id, AddCheck(check));
    }
  }

  lemma PushGood(c: Config, s: State, team: string, id: string, at: int)
    requires Good(c, s) && TaskGood(c, s, PushCapture(team, id, at))
    ensures Good(c, Change(s, id, AddCapture(Capture(team, at))))
  {
    ChangeKeepsOnce(s, id, AddCapture(Capture(team, at)));
    assert DocGood(c, s, s.db[id]);
    assert DocGood(c, s, AddCapture(Capture(team, at))(s.db[id]));
    ChangeGood(c, s, id, AddCapture(Capture(team, at)));
  }

  lemma ApplyGood(c: Config, s: State, k: int, cursor: seq<string>)
    requires Good(c, s) && k in s.tasks && IsDbOp(s.tasks[k])
    ensures Good(c, ApplyTask(s, k, cursor))
  {
    var done := Finish(s, k);
    FinishGood(c, s, k);
    match s.tasks[k]
    case Save(doc) =>
      SaveGood(c, s, k);
      LogGood(c, done.(db := s.db[doc.id := doc]), Created(doc.id, doc.team));
    case SetDelivered(id, ok) =>
      assert Reported(done, id);
      DeliverGood(c, done, id, ok);
      LogGood(c, Change(done, id, Deliver(ok)), PlantResult(id, ok));
    case PushCheck(id, check) =>
      CheckGood(c, done, id, check);
      LogGood(c, Change(done, id, AddCheck(check)), CheckResult(id, check.result));
    case PushCapture(team, id, at) =>
      assert TaskGood(c, s, s.tasks[k]);
      PushGood(c, done, team, id, at);
      LogGood(c, Change(done, id, AddCapture(Capture(team, at))), Captured(id, team));
    case FindUncaptured(_, at) => EnqueueChecksGood(c, done, cursor, at);
    case FindFlag(team, id) => AnswerGood(c, s, k);
  }

  lemma ConnectGood(c: Config, s: State, conn: nat, team: Option<string>)
    requires Good(c, s) && (team.Some? ==> team.value in c.teams)
    ensures Good(c, s.(connections := s.connections[conn := team]))
  {
    var s' := s.(connections := s.connections[conn := team]);
    forall j | j in s'.tasks ensures TaskGood(c, s', s'.tasks[j]) {
      assert TaskGood(c, s, s.tasks[j]);
    }
    forall i | i in s'.db ensures DocGood(c, s', s'.db[i]) {
      assert DocGood(c, s, s.db[i]);
    }
  }

  lemma ChallengeGood(c: Config, s: State, challenges: map<string, Challenge>)
    requires Good(c, s)
    ensures Good(c, s.(challenges := challenges))
  {
    var s' := s.(challenges := challenges);
    forall j | j in s'.tasks ensures TaskGood(c, s', s'.tasks[j]) {
      assert TaskGood(c, s, s.tasks[j]);
    }
    forall i | i in s'.db ensures DocGood(c, s', s'.db[i]) {
      assert DocGood(c, s, s.db[i]);
    }
  }

  lemma KnownTeam(c: Config, s: State, conn: nat)
    requires Good(c, s) && conn in s.connections
    ensures s.connections[conn].Some? ==> s.connections[conn].value in c.teams
  {
  }

  lemma StepGood(c: Config, s: State, e: Event)
    requires Good(c, s) && Enabled(c, s, e)
    ensures Good(c, Step(c, s, e))
  {
    hide Good, DocGood;
    match e
    case Tick(t) => TickGood(c, s, t);
    case Plant(choices) =>
      NewRoundGood(c, s);
      PlantAllGood(c, s.(latest := Some(s.now), rounds := s.rounds + [s.now]), Grid(c.services, c.teams), choices);
    case PlantDone(id, status) => PlantedGood(c, s, id, status);
    case CheckRound =>
      if s.latest.Some? { EnqueueGood(c, s, FindUncaptured(s.latest.value, s.now)); }
    case CheckDone(k, status) =>
      FinishGood(c, s, k);
      EnqueueGood(c, Finish(s, k), PushCheck(s.tasks[k].id, Check(s.tasks[k].at, status == Exit(0))));
    case Connect(conn) => ConnectGood(c, s, conn, None);
    case TeamLine(conn, name) =>
      if s.connections[conn] == None && name in c.teams { ConnectGood(c, s, conn, Some(name)); }
    case FlagLine(conn, id) =>
      KnownTeam(c, s, conn);
      if s.connections[conn].Some? { EnqueueGood(c, s, FindFlag(s.connections[conn].value, id)); }
    case LookupDone(k) => LookupGood(c, s, k);
    case Apply(k, cursor) => ApplyGood(c, s, k, cursor);
    case Solve(name, rank) =>
      ChallengeGood(c, s, PushRank(s.challenges, name, rank));
      LogGood(c, s.(challenges := PushRank(s.challenges, name, rank)), Solved(rank));
  }

  lemma {:induction false} RunGood(c: Config, d: Discipline, s: State, es: seq<Event>)
    requires Good(c, s) && Run(c, d, s, es)
    ensures Good(c, After(c, d, s, es))
    decreases |es|
  {
    if es != [] {
      StepGood(c, s, es[0]);
      RunGood(c, d, Step(c, s, es[0]), es[1..]);
    }
  }

  /** Every capture on record after any run. */
  lemma RecordedCaptures(c: Config, d: Discipline, es: seq<Event>, id: string, i: nat)
    requires Run(c, d, INITIAL, es)
    requires id in After(c, d, INITIAL, es).db && i < |After(c, d, INITIAL, es).db[id].captures|
    ensures var s := After(c, d, INITIAL, es);
            CaptureGood(c, s.rounds, s.db[id].team, s.db[id].time, s.db[id].captures[i])
  {
    RunGood(c, d, INITIAL, es);
    assert DocGood(c, After(c, d, INITIAL, es), After(c, d, INITIAL, es).db[id]);
  }
}
